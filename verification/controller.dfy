/** `generateResponse`: the rule-based path of the chatbot. A blank description gets an
    error box; any other description is tokenised, classified into a project type, and
    answered with that type's recommendation record rendered as HTML. */
module Controller {
  import opened PhpStrings
  import opened Tokenizer
  import opened Classifier
  import opened Templates
  import opened Renderer

  /** The error box returned for a description that `trim` reduces to the empty string. */
  const ErrorHtml: string :=
    "<div class='error-message'>" + "<strong>⚠️ Please enter your project requirements!</strong>" + "</div>"

  /** `trim($user_input) === ''`. */
  predicate IsBlank(input: Bytes)
  {
    Trim(input) == []
  }

  /** `$project_type` after the keyword chain has run over the filtered tokens. */
  function ProjectType(input: Bytes): Category
  {
    Classify(Tokens(input))
  }

  /** What `generateResponse` returns for `input`. */
  function Response(input: Bytes): string
  {
    if IsBlank(input) then ErrorHtml else Render(Template(ProjectType(input)))
  }

  /** `generateResponse`: the blank check, tokenising, stop-word and length filtering,
      the keyword chain, the template lookup and `formatResponse`, in that order. */
  method GenerateResponse(input: Bytes) returns (html: string)
    ensures html == Response(input)
  {
    if Trim(input) == [] {
      return ErrorHtml;
    }
    var tokens := Explode(Lower(input));
    tokens := FilterTokens(tokens);
    var projectType := Classify(tokens);
    var responseData := Template(projectType);
    html := FormatResponse(responseData);
  }

  /** The error box is returned exactly for blank descriptions: every rendered
      recommendation starts with the `response-content` div, which the error box does not. */
  lemma ErrorIffBlank(input: Bytes)
    ensures Response(input) == ErrorHtml <==> IsBlank(input)
  {
    if !IsBlank(input) {
      RenderIsWrapped(Template(ProjectType(input)));
      OpeningTagsDiffer();
    }
  }

  /** The error box and the `response-content` div differ in their class name. */
  lemma OpeningTagsDiffer()
    ensures |ErrorHtml| > 12 && |ResponseOpen| > 12
    ensures ErrorHtml[12] == 'e' && ResponseOpen[12] == 'r'
  {
  }

  /** A description is blank exactly when it consists of spaces, tabs, line breaks, NUL
      and vertical-tab bytes only (including the empty description). */
  lemma BlankIffOnlyTrimBytes(input: Bytes)
    ensures IsBlank(input) <==> forall i :: 0 <= i < |input| ==> input[i] in TrimBytes
  {
    TrimEmptyIff(input);
  }

  /** Every non-blank description is answered with the `response-content` div, closed at
      the end. */
  lemma NonBlankIsWrapped(input: Bytes)
    requires !IsBlank(input)
    ensures Response(input)[..|ResponseOpen|] == ResponseOpen
    ensures Response(input)[|Response(input)| - 6..] == "</div>"
  {
    RenderIsWrapped(Template(ProjectType(input)));
  }

  /** The answer depends on the description only through its project type: the text
      itself is never copied into the response. */
  lemma ResponseDependsOnlyOnType(a: Bytes, b: Bytes)
    requires !IsBlank(a) && !IsBlank(b)
    ensures ProjectType(a) == ProjectType(b) ==> Response(a) == Response(b)
  {
  }

  /** Blog requests get the general answer, since the template `switch` has no blog case. */
  lemma BlogAnsweredAsGeneral(a: Bytes, b: Bytes)
    requires !IsBlank(a) && !IsBlank(b)
    requires ProjectType(a) == BlogSystem && ProjectType(b) == General
    ensures Response(a) == Response(b)
  {
    BlogUsesDefault();
  }

  /** A byte that only differs from a trim byte in letter case is that trim byte. */
  lemma TrimByteIgnoresCase(x: Byte, y: Byte)
    requires LowerByte(x) == LowerByte(y)
    ensures x in TrimBytes <==> y in TrimBytes
  {
  }

  /** Blankness does not depend on letter case. */
  lemma BlankIgnoresCase(a: Bytes, b: Bytes)
    requires EqualIgnoringCase(a, b)
    ensures IsBlank(a) <==> IsBlank(b)
  {
    TrimEmptyIff(a);
    TrimEmptyIff(b);
    forall i | 0 <= i < |a| ensures a[i] in TrimBytes <==> b[i] in TrimBytes {
      TrimByteIgnoresCase(a[i], b[i]);
    }
  }

  /** Descriptions that differ only in letter case get the same answer. */
  lemma ResponseIgnoresCase(a: Bytes, b: Bytes)
    requires EqualIgnoringCase(a, b)
    ensures Response(a) == Response(b)
  {
    BlankIgnoresCase(a, b);
    TokensIgnoreCase(a, b);
  }

  /** Every recommendation lists 27 items: ten features, six technologies, six terms and
      five questions, in that order. */
  lemma TwentySevenItems(c: Category)
    ensures var d := Template(c);
      ListedItems(SectionOrder, d) == d.features + d.technologies + d.terms + d.questions
    ensures |ListedItems(SectionOrder, Template(c))| == 27
  {
    ListedItemsInOrder(Template(c));
  }
}
