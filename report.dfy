/**
 * `format_response`: wraps the analysis text returned by the service in one
 * of the report templates chosen in the sidebar. The text goes in verbatim,
 * unescaped; only the heading markup around it differs.
 */
module Report {
  import opened Wrappers
  import opened Strings

  datatype Template = Template1 | Template2 | Fallback

  /** Which wrapper a template name selects; any unknown name gets the fallback. */
  function TemplateOf(name: string): Template
  {
    if name == "Template 1" then Template1
    else if name == "Template 2" then Template2
    else Fallback
  }

  /** The `<h1>` text of each wrapper. */
  function Heading(t: Template): string
  {
    match t
    case Template1 => "Relatório de Análise de Dados"
    case Template2 => "Data Analysis Report"
    case Fallback => "Report"
  }

  /** The line under the heading, if the wrapper has one. */
  function Subheading(t: Template): string
  {
    match t
    case Template1 => "<h2>Resumo da Análise</h2>"
    case Template2 => "<h3>Analysis Summary</h3>"
    case Fallback => ""
  }

  /** The wrapper's first line: the styled `<div>` holding the report. */
  const DivOpen: string := "\n        <div style='font-family: Arial, sans-serif; padding: 20px;' id='analysis'>\n"

  /** The indentation of the lines inside the `<div>`. */
  const Inner: string := "            "

  /** The markup around the heading text on the `<h1>` line. */
  const H1Open: string := "<h1 style='text-align: center;'>"
  const H1Close: string := "</h1>"

  /** The `<h1>` markup with the template's heading. */
  function HeadingLine(t: Template): string
  {
    H1Open + Heading(t) + H1Close
  }

  /** What follows the heading, up to where the analysis text starts. */
  function AfterHeading(t: Template): string
  {
    "\n" + (if Subheading(t) == "" then "" else Inner + Subheading(t) + "\n") + Inner + "<p>"
  }

  /** Everything the wrapper puts before the analysis text. */
  function Opening(t: Template): string
  {
    DivOpen + Inner + HeadingLine(t) + AfterHeading(t)
  }

  /** Everything every wrapper puts after the analysis text. */
  const Closing: string := "</p>\n        </div>\n        "

  /**
   * The report document for a template name and an analysis text: the
   * template's opening, the text itself, and the common closing.
   */
  function FormatResponse(template: string, analysis: string): (doc: string)
    ensures |doc| == |Opening(TemplateOf(template))| + |analysis| + |Closing|
    ensures OccursAt(doc, analysis, |Opening(TemplateOf(template))|)
  {
    Opening(TemplateOf(template)) + analysis + Closing
  }

  /** Recovers the analysis text from a report built with the given template. */
  function ExtractAnalysis(template: string, doc: string): (r: Option<string>)
    ensures r.Some? ==> FormatResponse(template, r.value) == doc
  {
    var open := Opening(TemplateOf(template));
    if |doc| >= |open| + |Closing| && doc[..|open|] == open && doc[|doc| - |Closing|..] == Closing
    then Some(doc[|open|..|doc| - |Closing|])
    else None
  }

  /** The analysis text comes back out of its report unchanged, for every template. */
  lemma ExtractFormatted(template: string, analysis: string)
    ensures ExtractAnalysis(template, FormatResponse(template, analysis)) == Some(analysis)
  {
  }

  /** Two analyses give the same report only if they are the same text. */
  lemma FormatInjective(template: string, a1: string, a2: string)
    requires FormatResponse(template, a1) == FormatResponse(template, a2)
    ensures a1 == a2
  {
  }

  /** The report holds its template's `<h1>` line, heading included. */
  lemma HeadingLineShown(t: Template, analysis: string)
    ensures Contains(Opening(t) + analysis + Closing, HeadingLine(t))
    ensures Contains(Opening(t) + analysis + Closing, Heading(t))
  {
    var pre := DivOpen + Inner;
    OccursAfter(pre, HeadingLine(t));
    OccursAfter(H1Open, Heading(t));
    OccursAppend(H1Open + Heading(t), Heading(t), |H1Open|, H1Close);
    OccursPrepend(pre, HeadingLine(t), Heading(t), |H1Open|);
    var i, j := |pre|, |pre| + |H1Open|;
    OccursAppend(pre + HeadingLine(t), HeadingLine(t), i, AfterHeading(t));
    OccursAppend(pre + HeadingLine(t), Heading(t), j, AfterHeading(t));
    OccursAppend(Opening(t), HeadingLine(t), i, analysis);
    OccursAppend(Opening(t), Heading(t), j, analysis);
    OccursAppend(Opening(t) + analysis, HeadingLine(t), i, Closing);
    OccursAppend(Opening(t) + analysis, Heading(t), j, Closing);
    ContainsAt(Opening(t) + analysis + Closing, HeadingLine(t), i);
    ContainsAt(Opening(t) + analysis + Closing, Heading(t), j);
  }

  /** Each template name shows its heading, and the analysis text in full. */
  lemma HeadingShown(template: string, analysis: string)
    ensures template == "Template 1" ==> Contains(FormatResponse(template, analysis), "Relatório de Análise de Dados")
    ensures template == "Template 2" ==> Contains(FormatResponse(template, analysis), "Data Analysis Report")
    ensures template != "Template 1" && template != "Template 2" ==>
      Contains(FormatResponse(template, analysis), H1Open + "Report" + H1Close)
    ensures Contains(FormatResponse(template, analysis), analysis)
  {
    var t := TemplateOf(template);
    HeadingLineShown(t, analysis);
    ContainsAt(FormatResponse(template, analysis), analysis, |Opening(t)|);
  }

  /** Every name other than the two listed falls back to one and the same wrapper. */
  lemma FallbackUniform(t1: string, t2: string, analysis: string)
    requires t1 != "Template 1" && t1 != "Template 2"
    requires t2 != "Template 1" && t2 != "Template 2"
    ensures FormatResponse(t1, analysis) == FormatResponse(t2, analysis)
  {
  }
}
