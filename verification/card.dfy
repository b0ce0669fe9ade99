/**
 * The daily card of the with-dog stage and its parser (`parseDailyCard` in
 * src/app/with-dog/page.tsx). The assistant answers a card request with three headed
 * sections; each is found with its own regular expression, and the card exists only when
 * all three are found.
 */
module DailyCard {
  import opened Wrappers
  import opened Text
  import opened Scan

  /** The card the page shows and stores. */
  datatype Card = Card(focus: string, forbidden: string, reason: string)

  /**
   * One of the three section patterns `/<marker>\s*<title>[：:]?\s*\n([\s\S]*?)(?=\n*<stop>|$)/`;
   * `stop` is `None` for the last section, whose capture runs to the end of the text.
   */
  datatype Section = Section(marker: string, title: string, stop: Option<string>)

  /** U+2705, the check mark. */
  const FocusMarker: string := "\U{2705}"
  /** U+274C, the cross mark. */
  const ForbiddenMarker: string := "\U{274C}"
  /** U+2139 followed by the emoji presentation selector U+FE0F: two characters. */
  const ReasonMarker: string := "\U{2139}\U{FE0F}"

  const FocusSection: Section := Section(FocusMarker, "今天最需要关注的事", Some(ForbiddenMarker))
  const ForbiddenSection: Section := Section(ForbiddenMarker, "今天容易犯的错误", Some(ReasonMarker))
  const ReasonSection: Section := Section(ReasonMarker, "为什么", None)

  /** `[：:]`: the full-width colon U+FF1A or the ASCII one. */
  predicate IsColon(c: char) {
    c == '\U{FF1A}' || c == ':'
  }

  /** The last line feed among `text[lo..hi]`, if any. */
  function LastNewline(text: string, lo: nat, hi: nat): (r: Option<nat>)
    requires lo <= hi <= |text|
    ensures r.Some? ==> lo <= r.value < hi && text[r.value] == '\n'
    ensures r.Some? ==> forall k :: r.value < k < hi ==> text[k] != '\n'
    ensures r.None? ==> forall k :: lo <= k < hi ==> text[k] != '\n'
    decreases hi - lo
  {
    if lo == hi then None
    else if text[hi - 1] == '\n' then Some(hi - 1)
    else LastNewline(text, lo, hi - 1)
  }

  /**
   * The header of `sec` matched at `p`; the result is where the capture starts.
   * `\s*` before the title must take the whole whitespace run, because the title does not
   * start with whitespace; the optional colon is taken whenever present; and `\s*\n` gives
   * back characters of the whitespace run that follows until it ends on a line feed, so the
   * capture starts right after the last line feed of that run.
   */
  function HeaderAt(text: string, p: nat, sec: Section): (r: Option<nat>)
    ensures r.Some? ==> p < r.value <= |text| && text[r.value - 1] == '\n'
    ensures r.Some? ==> MatchesAt(text, p, sec.marker)
  {
    if !MatchesAt(text, p, sec.marker) then None
    else
      var a := p + |sec.marker| + Span(text, p + |sec.marker|, Space);
      if !MatchesAt(text, a, sec.title) then None
      else
        var b := a + |sec.title|;
        var b' := if b < |text| && IsColon(text[b]) then b + 1 else b;
        match LastNewline(text, b', b' + Span(text, b', Space))
        case Some(k) => Some(k + 1)
        case None => None
  }

  /** The lookahead `(?=\n*<stop>)` at `q`: a run of line feeds, then the stop marker. */
  predicate StopsAt(text: string, q: nat, stop: string)
    requires q <= |text|
  {
    MatchesAt(text, q + Span(text, q, Newline), stop)
  }

  /** Where the lazy capture from `c` ends: the first position where the lookahead holds. */
  function CaptureEnd(text: string, c: nat, stop: Option<string>): (e: nat)
    requires c <= |text|
    ensures c <= e <= |text|
    ensures e == |text| || (stop.Some? && StopsAt(text, e, stop.value))
    ensures stop.None? ==> e == |text|
    ensures forall q :: c <= q < e ==> !(stop.Some? && StopsAt(text, q, stop.value))
    decreases |text| - c
  {
    if c == |text| || (stop.Some? && StopsAt(text, c, stop.value)) then c
    else CaptureEnd(text, c + 1, stop)
  }

  /** `content.match(<pattern of sec>)`: the capture of the leftmost match, untrimmed. */
  function FindSection(text: string, sec: Section): (r: Option<string>)
    ensures r.None? <==> forall p :: 0 <= p <= |text| ==> HeaderAt(text, p, sec).None?
    ensures r.Some? ==>
      exists p, c ::
        && 0 <= p <= |text| && HeaderAt(text, p, sec) == Some(c)
        && (forall q :: 0 <= q < p ==> HeaderAt(text, q, sec).None?)
        && r.value == text[c..CaptureEnd(text, c, sec.stop)]
  {
    var matchAt := (s: string, p: nat) => HeaderAt(s, p, sec);
    assert forall p: nat :: matchAt(text, p) == HeaderAt(text, p, sec);
    match Leftmost(matchAt, text, 0)
    case None => None
    case Some(f) =>
      var c := f.captures;
      Some(text[c..CaptureEnd(text, c, sec.stop)])
  }

  /** Some position of `text` starts a header of `sec`. */
  predicate HasHeader(text: string, sec: Section) {
    exists p :: 0 <= p <= |text| && HeaderAt(text, p, sec).Some?
  }

  /**
   * `parseDailyCard`: a card exactly when all three sections match, each field the trimmed
   * capture of its section. Nothing requires a field to be non-empty.
   */
  function ParseDailyCard(content: string): (r: Option<Card>)
    ensures r.Some? <==>
      HasHeader(content, FocusSection) && HasHeader(content, ForbiddenSection) && HasHeader(content, ReasonSection)
    ensures r.Some? ==> IsTrimmed(r.value.focus) && IsTrimmed(r.value.forbidden) && IsTrimmed(r.value.reason)
    ensures r.Some? ==>
      && r.value.focus == Trim(FindSection(content, FocusSection).value)
      && r.value.forbidden == Trim(FindSection(content, ForbiddenSection).value)
      && r.value.reason == Trim(FindSection(content, ReasonSection).value)
  {
    match (FindSection(content, FocusSection), FindSection(content, ForbiddenSection), FindSection(content, ReasonSection))
    case (Some(f), Some(x), Some(y)) => Some(Card(Trim(f), Trim(x), Trim(y)))
    case _ => None
  }
}
