/**
 * The `/mood-palette` endpoint of the server: request validation, the palette span in the
 * language model's reply (the leftmost match of the pattern `\[[^\]]+\]`), and the mood
 * description (the first non-blank line with no `#` and no `[`).
 */
module MoodPalette {
  import opened Wrappers
  import opened Text

  /**
   * The pattern `\[[^\]]+\]` matches `text[i..j + 1]`: a `[` at `i`, a `]` at `j`, at least
   * one character between them, and no `]` among those characters.
   */
  predicate IsPaletteSpan(text: string, i: int, j: int) {
    0 <= i && i + 2 <= j < |text| && text[i] == '[' && text[j] == ']'
    && forall k :: i < k < j ==> text[k] != ']'
  }

  /** A match of the pattern: the positions of its `[` and of its closing `]`. */
  datatype Span = Span(open: nat, close: nat)

  /** The first `]` at or after position `k`. */
  function NextClose(text: string, k: nat): (r: Option<nat>)
    requires k <= |text|
    ensures r.Some? ==> k <= r.value < |text| && text[r.value] == ']'
    ensures r.Some? ==> forall m :: k <= m < r.value ==> text[m] != ']'
    ensures r.None? ==> forall m :: k <= m < |text| ==> text[m] != ']'
    decreases |text| - k
  {
    if k == |text| then None
    else if text[k] == ']' then Some(k)
    else NextClose(text, k + 1)
  }

  /**
   * The regular-expression search from position `from` onwards: at each position in turn, a
   * `[` whose next `]` leaves at least one character between them starts the match.
   */
  function SpanFrom(text: string, from: nat): (r: Option<Span>)
    requires from <= |text|
    ensures r.Some? ==> from <= r.value.open && IsPaletteSpan(text, r.value.open, r.value.close)
    ensures forall i, j :: from <= i && IsPaletteSpan(text, i, j) ==> r.Some? && r.value.open <= i
    decreases |text| - from
  {
    if from == |text| then None
    else if text[from] == '[' then
      match NextClose(text, from + 1)
      case Some(j) =>
        if j >= from + 2 then Some(Span(from, j)) else SpanFrom(text, from + 1)
      case None => SpanFrom(text, from + 1)
    else SpanFrom(text, from + 1)
  }

  /**
   * `responseText.match(/\[[^\]]+\]/)`: the leftmost span of the pattern, or none. The span
   * found is a match, no match starts further left, and there is no match when none is found.
   */
  function PaletteSpan(text: string): (r: Option<Span>)
    ensures r.Some? ==> IsPaletteSpan(text, r.value.open, r.value.close)
    ensures r.Some? ==> forall i, j :: IsPaletteSpan(text, i, j) ==> r.value.open <= i
    ensures r.None? <==> forall i, j :: !IsPaletteSpan(text, i, j)
  {
    SpanFrom(text, 0)
  }

  /** The matched text `match[0]`, brackets included, handed to `JSON.parse`. */
  function PaletteText(text: string): (r: Option<string>)
    ensures r.Some? ==> |r.value| >= 3 && r.value[0] == '[' && r.value[|r.value| - 1] == ']'
    ensures r.Some? ==> ']' !in r.value[..|r.value| - 1]
    ensures r.Some? ==> (PaletteSpan(text).Some?
      && r.value == text[PaletteSpan(text).value.open..PaletteSpan(text).value.close + 1])
    ensures r.None? <==> forall i, j :: !IsPaletteSpan(text, i, j)
  {
    match PaletteSpan(text)
    case None => None
    case Some(sp) => Some(text[sp.open..sp.close + 1])
  }

  /** A `[` has exactly one closing `]` for the pattern: the leftmost match is unique. */
  lemma SpanCloseUnique(text: string, i: int, j1: int, j2: int)
    requires IsPaletteSpan(text, i, j1) && IsPaletteSpan(text, i, j2)
    ensures j1 == j2
  {
  }

  /** An empty pair of brackets is not a palette. */
  lemma EmptyBracketsNoPalette()
    ensures PaletteText("[]") == None
  {
    assert forall i, j :: !IsPaletteSpan("[]", i, j);
  }

  /** A line that is not all whitespace and has neither `#` nor `[` in it. */
  predicate IsDescriptionLine(line: string) {
    !AllWhitespace(line) && '#' !in line && '[' !in line
  }

  /** `lines.filter(line => line.trim().length > 0)`. */
  function NonBlank(lines: seq<string>): seq<string> {
    if lines == [] then []
    else if Trim(lines[0]) != "" then [lines[0]] + NonBlank(lines[1..])
    else NonBlank(lines[1..])
  }

  /** `.find(line => !line.includes("#") && !line.includes("["))`. */
  function FindMoodLine(lines: seq<string>): Option<string> {
    if lines == [] then None
    else if !Includes(lines[0], '#') && !Includes(lines[0], '[') then Some(lines[0])
    else FindMoodLine(lines[1..])
  }

  /** Reference definition: the first line that is a description line, with its position. */
  function FirstDescriptionLine(lines: seq<string>): (r: Option<nat>)
    ensures r.Some? ==> r.value < |lines| && IsDescriptionLine(lines[r.value])
    ensures r.Some? ==> forall m :: 0 <= m < r.value ==> !IsDescriptionLine(lines[m])
    ensures r.None? ==> forall m :: 0 <= m < |lines| ==> !IsDescriptionLine(lines[m])
  {
    if lines == [] then None
    else if IsDescriptionLine(lines[0]) then Some(0)
    else
      var rest := lines[1..];
      assert forall m :: 1 <= m < |lines| ==> lines[m] == rest[m - 1];
      match FirstDescriptionLine(rest)
      case None => None
      case Some(k) => Some(k + 1)
  }

  /** Filtering out blank lines and then finding the first `#`/`[`-free one is the reference. */
  lemma {:induction false} FilterThenFind(lines: seq<string>)
    ensures FindMoodLine(NonBlank(lines)) ==
      match FirstDescriptionLine(lines)
      case None => None
      case Some(k) => Some(lines[k])
  {
    if lines != [] {
      TrimEmpty(lines[0]);
      FilterThenFind(lines[1..]);
      if Trim(lines[0]) != "" {
        assert NonBlank(lines)[1..] == NonBlank(lines[1..]);
      }
    }
  }

  /** No line of `lines` is a description line. */
  predicate NoDescriptionLine(lines: seq<string>) {
    forall m :: 0 <= m < |lines| ==> !IsDescriptionLine(lines[m])
  }

  /** `lines[k]` is the first description line of `lines`. */
  predicate FirstDescriptionAt(lines: seq<string>, k: int) {
    0 <= k < |lines| && IsDescriptionLine(lines[k])
    && forall m :: 0 <= m < k ==> !IsDescriptionLine(lines[m])
  }

  /**
   * `lines.filter(...).find(...) || ""`: the first line that is not blank and has neither `#`
   * nor `[` in it, untrimmed, or `""` when there is none.
   */
  function DescriptionIn(lines: seq<string>): (r: string)
    ensures r == "" <==> NoDescriptionLine(lines)
    ensures r != "" ==> exists k :: FirstDescriptionAt(lines, k) && lines[k] == r
  {
    FilterThenFind(lines);
    match FindMoodLine(NonBlank(lines))
    case Some(line) =>
      var k := FirstDescriptionLine(lines).value;
      assert line == lines[k] && line != "" && FirstDescriptionAt(lines, k);
      line
    case None => ""
  }

  /**
   * The mood description of a reply: the first description line among the reply's lines
   * (split on `\n`), or `""` when there is none. It never contains `#` or `[`.
   */
  function MoodDescription(text: string): (r: string)
    ensures !Includes(r, '#') && !Includes(r, '[')
    ensures r == "" <==> NoDescriptionLine(Split(text, '\n'))
    ensures r != "" ==> exists k :: FirstDescriptionAt(Split(text, '\n'), k) && Split(text, '\n')[k] == r
  {
    DescriptionIn(Split(text, '\n'))
  }

  /** The endpoint's reply. */
  datatype MoodReply =
    | MoodBadRequest                                       // 400 'Missing title or artist'
    | MoodServerError                                      // 500 'Failed to generate mood palette'
    | MoodOk(palette: seq<string>, moodDescription: string)

  /**
   * `POST /mood-palette`. `reply` is the message content of the language model's first
   * choice (`None` when the call failed or the content is missing), and `parse` is `JSON.parse`
   * on the bracketed span (`None` when it throws). Both are consulted only for a valid request.
   */
  function MoodPaletteReply(title: Option<string>, artist: Option<string>, reply: Option<string>,
                            parse: string -> Option<seq<string>>): (r: MoodReply)
    ensures r == MoodBadRequest <==> !Truthy(title) || !Truthy(artist)
    ensures Truthy(title) && Truthy(artist) && !Truthy(reply) ==> r == MoodServerError
    ensures r.MoodOk? ==> Truthy(reply)
    ensures r.MoodOk? && PaletteText(reply.value).None? ==> r.palette == []
    ensures r.MoodOk? && PaletteText(reply.value).Some? ==> parse(PaletteText(reply.value).value) == Some(r.palette)
    ensures r.MoodOk? ==> r.moodDescription == MoodDescription(reply.value)
    ensures r.MoodOk? ==> !Includes(r.moodDescription, '#') && !Includes(r.moodDescription, '[')
    ensures r == MoodServerError && Truthy(title) && Truthy(artist) && Truthy(reply) ==>
      PaletteText(reply.value).Some? && parse(PaletteText(reply.value).value).None?
    ensures Truthy(title) && Truthy(artist) && Truthy(reply) ==>
      (r.MoodOk? <==> PaletteText(reply.value).None? || parse(PaletteText(reply.value).value).Some?)
  {
    if !Truthy(title) || !Truthy(artist) then MoodBadRequest
    else if !Truthy(reply) then MoodServerError
    else
      var text := reply.value;
      var palette := match PaletteText(text)
        case None => Some([])
        case Some(span) => parse(span);
      if palette.None? then MoodServerError
      else MoodOk(palette.value, MoodDescription(text))
  }
}
