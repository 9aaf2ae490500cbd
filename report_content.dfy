/**
 * `generateReportContent`: the template the job runner fills from a report's
 * form fields (controllers/report.controller.js). The fixed wording of the
 * template is one value, `Wording`; `Render` fills any wording from a record,
 * and `GenerateReportContent` is `Render` with the wording the source uses.
 * Every property below is proved for every wording, so none of them depends
 * on the exact text of the template.
 */
module ReportContent {
  import opened Common
  import opened Text
  import opened ReportModel

  /** A sentence with one value in it: `lead + (value || fallback) + close`. */
  datatype Blank = Blank(lead: string, fallback: string, close: string)

  function Fill(b: Blank, value: Option<string>): (r: string)
    ensures Truthy(value) ==> r == b.lead + value.value + b.close
    ensures !Truthy(value) ==> r == b.lead + b.fallback + b.close
  {
    b.lead + OrElse(value, b.fallback) + b.close
  }

  /** The executive summary's wording around the organization, industries, team size and USP. */
  datatype SummaryWording = SummaryWording(
    opening: string, industryLink: string, team: Blank, usp: Blank)

  /** A recommendation whose description is a `Blank`. */
  datatype RecommendationWording = RecommendationWording(
    title: string, description: Blank, priority: string, timeline: string)

  datatype Wording = Wording(
    summary: SummaryWording,
    market: MarketAnalysis,
    rivalStrengths: seq<string>, rivalWeaknesses: seq<string>, rivalShare: string,
    advantageFallback: string,
    positioning: string,
    swot: Swot,
    strengthFallback: string,
    planned: seq<Recommendation>,
    partnership: RecommendationWording,
    talent: RecommendationWording,
    projections: Financials,
    risks: seq<Risk>,
    conclusionLink: string, conclusionClose: string)

  /** The wording of controllers/report.controller.js. */
  const SourceWording := Wording(
    SummaryWording(
      "This comprehensive analysis for ",
      " operating in the ",
      Blank(" sector provides strategic insights and recommendations. The organization, with a team size of ",
            "undisclosed", " members, demonstrates "),
      Blank("", "unique value propositions", " in a competitive market landscape.")),
    MarketAnalysis(
      "The global market for this industry is valued at $XXX billion",
      "15-20% CAGR expected over the next 5 years",
      ["Digital transformation acceleration", "Sustainability focus",
       "Customer experience enhancement", "Data-driven decision making"],
      ["Emerging market expansion", "Product diversification",
       "Strategic partnerships", "Technology integration"],
      ["Increased competition", "Regulatory changes", "Economic uncertainty", "Technology disruption"]),
    ["Market presence", "Brand recognition"], ["Limited innovation", "High prices"], "XX%",
    "Unique positioning in the market",
    "Strategic market position with focus on quality and innovation",
    Swot(["Strong team expertise", "Innovative product/service offering", "Strategic partnerships"],
         ["Limited market presence", "Resource constraints", "Brand awareness"],
         ["Market expansion potential", "Partnership opportunities", "Technology advancement"],
         ["Competitive pressure", "Market volatility", "Regulatory challenges"]),
    "Unique value proposition",
    [ Recommendation("Market Expansion Strategy",
        "Focus on expanding into adjacent markets to increase revenue streams", "High", "6-12 months"),
      Recommendation("Digital Transformation",
        "Implement digital tools and processes to improve operational efficiency", "High", "3-6 months") ],
    RecommendationWording("Partnership Development",
      Blank("Leverage partnerships with ", "strategic partners", " for growth"), "Medium", "6-9 months"),
    RecommendationWording("Talent Acquisition",
      Blank("Expand team from ", "current size", " to support growth objectives"), "Medium", "3-12 months"),
    Financials("Expected 30-40% revenue growth over next 2 years",
               "User acquisition, retention, and monetization improvements",
               "Series A funding of $5-10M recommended for expansion"),
    [ Risk("Market Competition", "High", "Medium", "Differentiation through innovation and customer service"),
      Risk("Technology Changes", "Medium", "High", "Continuous R&D investment and agile development"),
      Risk("Regulatory Compliance", "High", "Low", "Regular compliance audits and legal consultation") ],
    " is well-positioned for growth in the ",
    " sector. With strategic focus on the recommended areas and leveraging the identified opportunities, "
    + "the organization can achieve sustainable growth and market leadership.")

  function Summary(j: Job, w: SummaryWording): string {
    w.opening + j.organization + w.industryLink + Join(j.industry, ", ")
    + Fill(w.team, j.teamSize) + Fill(w.usp, j.usp)
  }

  /**
   * One entry per listed competitor. The source's fallback list
   * (`report.competitors || [...]`) never applies: the stored field is always
   * an array, and an empty array is truthy.
   */
  function CompetitorEntries(names: seq<string>, w: Wording): (cs: seq<Competitor>)
    ensures |cs| == |names|
    ensures forall i :: 0 <= i < |names| ==> cs[i].name == names[i] && cs[i].marketShare == w.rivalShare
  {
    seq(|names|, i requires 0 <= i < |names| =>
      Competitor(names[i], w.rivalStrengths, w.rivalWeaknesses, w.rivalShare))
  }

  function Recommend(r: RecommendationWording, value: Option<string>): Recommendation {
    Recommendation(r.title, Fill(r.description, value), r.priority, r.timeline)
  }

  /** The partnership recommendation's value: `report.partners?.join(', ')` (the stored field is always an array). */
  function PartnersValue(partners: seq<string>): Option<string> {
    Some(Join(partners, ", "))
  }

  function Render(j: Job, w: Wording): GeneratedReport {
    GeneratedReport(
      Summary(j, w.summary),
      w.market,
      CompetitorEntries(j.competitors, w),
      OrElse(j.usp, w.advantageFallback),
      w.positioning,
      Swot(w.swot.strengths + [OrElse(j.usp, w.strengthFallback)],
           w.swot.weaknesses, w.swot.opportunities, w.swot.threats),
      w.planned + [Recommend(w.partnership, PartnersValue(j.partners)), Recommend(w.talent, j.teamSize)],
      w.projections,
      w.risks,
      j.organization + w.conclusionLink + Join(j.industry, ", ") + w.conclusionClose)
  }

  /** `generateReportContent(report)`. */
  function GenerateReportContent(j: Job): (g: GeneratedReport)
    ensures |g.mainCompetitors| == |j.competitors|
    ensures forall i :: 0 <= i < |j.competitors| ==> g.mainCompetitors[i].name == j.competitors[i]
  {
    Render(j, SourceWording)
  }

  /**
   * Whatever the wording, a USP given on the form is the competitive advantage
   * and the last SWOT strength; without one both fall back to fixed text.
   */
  lemma UspFillsAdvantageAndStrength(j: Job, w: Wording)
    ensures var g := Render(j, w);
      var n := |g.swot.strengths|;
      n == |w.swot.strengths| + 1
      && (Truthy(j.usp) ==> g.competitiveAdvantage == j.usp.value && g.swot.strengths[n - 1] == j.usp.value)
      && (!Truthy(j.usp) ==> g.competitiveAdvantage == w.advantageFallback
                             && g.swot.strengths[n - 1] == w.strengthFallback)
  {
  }

  /** The executive summary names the organization right after its opening words. */
  lemma SummaryNamesOrganization(j: Job, w: Wording)
    ensures OccursAt(Render(j, w).executiveSummary, j.organization, |w.summary.opening|)
  {
    var o := w.summary.opening;
    var rest := w.summary.industryLink + Join(j.industry, ", ")
      + Fill(w.summary.team, j.teamSize) + Fill(w.summary.usp, j.usp);
    var s := o + j.organization + rest;
    assert Render(j, w).executiveSummary == s;
    assert s[|o|..|o| + |j.organization|] == j.organization;
  }

  /** The conclusion opens with the organization. */
  lemma ConclusionOpensWithOrganization(j: Job, w: Wording)
    ensures j.organization <= Render(j, w).conclusion
  {
    var rest := w.conclusionLink + Join(j.industry, ", ") + w.conclusionClose;
    assert Render(j, w).conclusion == j.organization + rest;
  }

  /** The fixed recommendations, then the partnership one, then the team one, in that order. */
  lemma RecommendationsInOrder(j: Job, w: Wording)
    ensures var rs := Render(j, w).recommendations;
      |rs| == |w.planned| + 2
      && rs[..|w.planned|] == w.planned
      && rs[|w.planned|].title == w.partnership.title
      && rs[|w.planned| + 1].title == w.talent.title
  {
    var rs := Render(j, w).recommendations;
    assert rs[..|w.planned|] == w.planned;
  }

  /**
   * The partnership recommendation falls back to its fixed wording exactly
   * when there is no partner to name (no entry, or a single empty one) or
   * when the partners joined happen to read like the fallback.
   */
  lemma {:induction false} PartnersFallbackIff(partners: seq<string>, r: RecommendationWording)
    ensures Recommend(r, PartnersValue(partners)) == Recommend(r, PartnersValue([]))
            <==> (partners == [] || partners == [""] || Join(partners, ", ") == r.description.fallback)
  {
    JoinEmptyIff(partners, ", ");
    JoinEmptyIff([], ", ");
    var b := r.description;
    var t := OrElse(PartnersValue(partners), b.fallback);
    assert Fill(b, PartnersValue(partners)) == b.lead + t + b.close;
    assert Fill(b, PartnersValue([])) == b.lead + b.fallback + b.close;
    if Fill(b, PartnersValue(partners)) == Fill(b, PartnersValue([])) {
      assert (b.lead + t + b.close)[|b.lead|..|b.lead| + |t|] == t;
      assert (b.lead + b.fallback + b.close)[|b.lead|..|b.lead| + |b.fallback|] == b.fallback;
    }
  }

  /** In the source's wording, the fallback is "strategic partners". */
  lemma SourcePartnersFallbackIff(j: Job)
    ensures var rs := GenerateReportContent(j).recommendations;
      |rs| == 4
      && (rs[2] == Recommend(SourceWording.partnership, PartnersValue([]))
          <==> (j.partners == [] || j.partners == [""] || Join(j.partners, ", ") == "strategic partners"))
  {
    RecommendationsInOrder(j, SourceWording);
    PartnersFallbackIff(j.partners, SourceWording.partnership);
  }

  /** The content depends on the form fields only, not on the record's state or bookkeeping. */
  lemma ContentDependsOnFormOnly(a: Job, b: Job, w: Wording)
    requires a.organization == b.organization && a.industry == b.industry && a.teamSize == b.teamSize
    requires a.usp == b.usp && a.competitors == b.competitors && a.partners == b.partners
    ensures Render(a, w) == Render(b, w)
  {
  }
}
