/**
 * Properties of the daily-card parser: a card written in the layout the assistant is asked
 * for parses back to itself, empty sections are accepted, and the leftmost header wins.
 */
module DailyCardProperties {
  import opened Wrappers
  import opened Text
  import opened Scan
  import opened DailyCard

  /** A section header as the assistant is asked to write it: marker, space, title, full-width colon, line feed. */
  function HeaderText(sec: Section): string {
    sec.marker + " " + sec.title + "\U{FF1A}\n"
  }

  /** The card laid out as three headed sections separated by blank lines. */
  function Render(c: Card): string {
    HeaderText(FocusSection) + c.focus + "\n\n"
      + HeaderText(ForbiddenSection) + c.forbidden + "\n\n"
      + HeaderText(ReasonSection) + c.reason
  }

  /** A field the layout can carry: trimmed, and free of the three marker characters. */
  predicate Carriable(s: string) {
    && IsTrimmed(s)
    && forall k :: 0 <= k < |s| ==> s[k] != '\U{2705}' && s[k] != '\U{274C}' && s[k] != '\U{2139}'
  }

  /** The section constants meet the shape `SectionFound` relies on. */
  predicate WellShaped(sec: Section) {
    && |sec.marker| > 0 && |sec.title| > 0 && !IsSpace(sec.title[0])
    && (sec.stop.Some? ==> |sec.stop.value| > 0 && !IsSpace(sec.stop.value[0]))
  }

  // ---------------------------------------------------------------- one section

  /** No header of `sec` starts inside `pre` when `pre` lacks the marker's first character. */
  lemma NoHeaderBefore(text: string, pre: string, sec: Section)
    requires |sec.marker| > 0 && At(text, 0, pre)
    requires forall k :: 0 <= k < |pre| ==> pre[k] != sec.marker[0]
    ensures forall q :: 0 <= q < |pre| ==> HeaderAt(text, q, sec).None?
  {
    forall q | 0 <= q < |pre| ensures HeaderAt(text, q, sec).None? {
      assert text[0 + q] == pre[q];
    }
  }

  /** Where the capture of a rendered header starts. */
  function CaptureStart(h: nat, body: string, sec: Section): nat {
    if |body| > 0 then h
    else if sec.stop.Some? then h + 2
    else h
  }

  /** `piece` sits in `text` from index `p` on. */
  predicate At(text: string, p: nat, piece: string) {
    p + |piece| <= |text| && forall i :: 0 <= i < |piece| ==> text[p + i] == piece[i]
  }

  /** `MatchesAt` is `At`. */
  lemma MatchesAtAt(text: string, p: nat, pat: string)
    ensures MatchesAt(text, p, pat) <==> At(text, p, pat)
  {
    MatchFromIff(text, p, pat, 0);
  }

  /** A text laid out as four consecutive pieces. */
  lemma Pieces(text: string, pre: string, mid: string, body: string, post: string)
    requires text == pre + mid + body + post
    ensures |text| == |pre| + |mid| + |body| + |post|
    ensures At(text, 0, pre)
    ensures At(text, |pre|, mid)
    ensures At(text, |pre| + |mid|, body)
    ensures At(text, |pre| + |mid| + |body|, post)
  {
  }

  /** Where the marker, the title and the two closing characters sit in a header. */
  lemma HeaderShape(sec: Section)
    ensures var m := |sec.marker|; var t := |sec.title|;
      && |HeaderText(sec)| == m + t + 3
      && At(HeaderText(sec), 0, sec.marker)
      && HeaderText(sec)[m] == ' '
      && At(HeaderText(sec), m + 1, sec.title)
      && HeaderText(sec)[m + 1 + t] == '\U{FF1A}' && HeaderText(sec)[m + 2 + t] == '\n'
  {
  }

  /** A header text at `p`, character by character. */
  lemma HeaderLaidOut(text: string, p: nat, sec: Section)
    requires At(text, p, HeaderText(sec))
    ensures var m := |sec.marker|; var t := |sec.title|;
      && At(text, p, sec.marker) && text[p + m] == ' ' && At(text, p + m + 1, sec.title)
      && text[p + m + 1 + t] == '\U{FF1A}' && text[p + m + 2 + t] == '\n'
  {
    HeaderShape(sec);
    var m := |sec.marker|;
    var t := |sec.title|;
    assert forall i :: 0 <= i < m ==> text[p + i] == HeaderText(sec)[i];
    assert forall i :: m + 1 <= i < m + 1 + t ==> text[p + i] == HeaderText(sec)[i];
    assert text[p + m] == HeaderText(sec)[m];
    assert text[p + m + 1 + t] == HeaderText(sec)[m + 1 + t];
    assert text[p + m + 2 + t] == HeaderText(sec)[m + 2 + t];
  }

  /** The marker, one space and the title at `p`, as `HeaderAt` reads them. */
  lemma HeaderPrefix(text: string, p: nat, sec: Section)
    requires WellShaped(sec)
    requires var m := |sec.marker|;
      && At(text, p, sec.marker) && p + m < |text| && text[p + m] == ' ' && At(text, p + m + 1, sec.title)
    ensures MatchesAt(text, p, sec.marker)
    ensures Span(text, p + |sec.marker|, Space) == 1
    ensures MatchesAt(text, p + |sec.marker| + 1, sec.title)
  {
    var m := |sec.marker|;
    MatchesAtAt(text, p, sec.marker);
    MatchesAtAt(text, p + m + 1, sec.title);
    assert text[p + m + 1] == sec.title[0];
    assert Span(text, p + m + 1, Space) == 0;
  }

  /** Once the header is matched, the capture starts after the last line feed of the whitespace run that follows it. */
  lemma HeaderAtRun(text: string, p: nat, sec: Section, run: nat, k: nat)
    requires var m := |sec.marker|; var t := |sec.title|;
      && p + m + 2 + t < |text| && MatchesAt(text, p, sec.marker) && Span(text, p + m, Space) == 1
      && MatchesAt(text, p + m + 1, sec.title) && text[p + m + 1 + t] == '\U{FF1A}'
    requires var b' := p + |sec.marker| + |sec.title| + 2; Span(text, b', Space) == run && LastNewline(text, b', b' + run) == Some(k)
    ensures HeaderAt(text, p, sec) == Some(k + 1)
  {
  }

  /** A run of `n` line feeds ended by a non-space or by the end of the text. */
  lemma NewlineRun(text: string, d: nat, n: nat)
    requires 0 < n && d + n <= |text|
    requires forall i :: d <= i < d + n ==> text[i] == '\n'
    requires d + n == |text| || !IsSpace(text[d + n])
    ensures Span(text, d, Space) == n && LastNewline(text, d, d + n) == Some(d + n - 1)
    decreases n
  {
    if n > 1 {
      NewlineRun(text, d + 1, n - 1);
    }
  }

  /** A matched header followed by `n` line feeds and then a non-space or the end of the text. */
  lemma HeaderThenNewlines(text: string, p: nat, sec: Section, h: nat, n: nat)
    requires var m := |sec.marker|; var t := |sec.title|;
      && h == p + m + t + 3 && 0 < n && h - 1 + n <= |text|
      && MatchesAt(text, p, sec.marker) && Span(text, p + m, Space) == 1
      && MatchesAt(text, p + m + 1, sec.title) && text[h - 2] == '\U{FF1A}'
    requires forall i :: h - 1 <= i < h - 1 + n ==> text[i] == '\n'
    requires h - 1 + n == |text| || !IsSpace(text[h - 1 + n])
    ensures HeaderAt(text, p, sec) == Some(h - 1 + n)
  {
    NewlineRun(text, h - 1, n);
    HeaderAtRun(text, p, sec, n, h - 2 + n);
  }

  /** The header written by `HeaderText` matches where it is written. */
  lemma HeaderMatches(text: string, p: nat, sec: Section, body: string, post: string)
    requires WellShaped(sec)
    requires p + |HeaderText(sec)| + |body| + |post| == |text|
    requires At(text, p, HeaderText(sec))
    requires At(text, p + |HeaderText(sec)|, body)
    requires At(text, p + |HeaderText(sec)| + |body|, post)
    requires IsTrimmed(body)
    requires sec.stop.Some? ==> exists rest :: post == "\n\n" + sec.stop.value + rest
    requires sec.stop.None? ==> post == []
    ensures HeaderAt(text, p, sec) == Some(CaptureStart(p + |HeaderText(sec)|, body, sec))
  {
    HeaderShape(sec);
    HeaderLaidOut(text, p, sec);
    HeaderPrefix(text, p, sec);
    var h := p + |HeaderText(sec)|;
    if |body| > 0 {
      assert text[h] == body[0];
      HeaderThenNewlines(text, p, sec, h, 1);
    } else if sec.stop.Some? {
      var rest :| post == "\n\n" + sec.stop.value + rest;
      BlankLineThenStop(text, h, sec.stop.value, rest, post);
      assert text[h + 2] == sec.stop.value[0];
      HeaderThenNewlines(text, p, sec, h, 3);
    } else {
      HeaderThenNewlines(text, p, sec, h, 1);
    }
  }

  /** Inside a trimmed body without the stop marker's first character the lookahead never holds. */
  lemma NoStopInBody(text: string, c: nat, body: string, stop: string)
    requires |stop| > 0 && At(text, c, body)
    requires IsTrimmed(body)
    requires forall k :: 0 <= k < |body| ==> body[k] != stop[0]
    ensures forall q :: c <= q < c + |body| ==> !StopsAt(text, q, stop)
  {
    forall q | c <= q < c + |body| ensures !StopsAt(text, q, stop) {
      var n := Span(text, q, Newline);
      assert body[|body| - 1] == text[c + |body| - 1];
      if q + n < c + |body| {
        assert text[q + n] == body[q + n - c];
      }
    }
  }

  /** A run of `n` line feeds at `d` followed by `stop` satisfies the lookahead at `d`. */
  lemma StopAfterNewlines(text: string, d: nat, n: nat, stop: string)
    requires |stop| > 0 && stop[0] != '\n'
    requires forall i :: d <= i < d + n ==> i < |text| && text[i] == '\n'
    requires At(text, d + n, stop)
    ensures StopsAt(text, d, stop)
  {
    assert text[d + n] == stop[0];
    MatchesAtAt(text, d + n, stop);
  }

  /** The lazy capture from `c` ends at `d` when the lookahead holds at `d` and nowhere before. */
  lemma CaptureEndIs(text: string, c: nat, d: nat, stop: string)
    requires c <= d < |text| && StopsAt(text, d, stop)
    requires forall q :: c <= q < d ==> !StopsAt(text, q, stop)
    ensures CaptureEnd(text, c, Some(stop)) == d
  {
  }

  /** A blank line and the stop marker at `d`, read off the text after a body. */
  lemma BlankLineThenStop(text: string, d: nat, stop: string, rest: string, post: string)
    requires post == "\n\n" + stop + rest && At(text, d, post)
    ensures forall i :: d <= i < d + 2 ==> i < |text| && text[i] == '\n'
    ensures At(text, d + 2, stop)
  {
    assert text[d] == post[0] && text[d + 1] == post[1];
    forall i | 0 <= i < |stop| ensures text[d + 2 + i] == stop[i] {
      assert text[d + (2 + i)] == post[2 + i];
    }
  }

  /** The capture of a rendered section ends where its body ends. */
  lemma CaptureEndsAtBody(text: string, c: nat, body: string, sec: Section, post: string)
    requires WellShaped(sec)
    requires At(text, c, body) && At(text, c + |body|, post)
    requires IsTrimmed(body)
    requires sec.stop.Some? ==> forall k :: 0 <= k < |body| ==> body[k] != sec.stop.value[0]
    requires sec.stop.Some? ==> exists rest :: post == "\n\n" + sec.stop.value + rest
    requires sec.stop.None? ==> c + |body| + |post| == |text| && post == []
    ensures CaptureEnd(text, c, sec.stop) == c + |body|
  {
    if sec.stop.Some? {
      var stop := sec.stop.value;
      var rest :| post == "\n\n" + stop + rest;
      var d := c + |body|;
      NoStopInBody(text, c, body, stop);
      BlankLineThenStop(text, d, stop, rest, post);
      StopAfterNewlines(text, d, 2, stop);
      CaptureEndIs(text, c, d, stop);
    }
  }

  /** The leftmost header at `p` with capture start `c` makes `FindSection` capture from `c`. */
  lemma FoundAt(text: string, sec: Section, p: nat, c: nat)
    requires p <= |text| && HeaderAt(text, p, sec) == Some(c)
    requires forall q :: 0 <= q < p ==> HeaderAt(text, q, sec).None?
    ensures FindSection(text, sec) == Some(text[c..CaptureEnd(text, c, sec.stop)])
  {
    var matchAt := (s: string, q: nat) => HeaderAt(s, q, sec);
    assert forall q: nat :: matchAt(text, q) == HeaderAt(text, q, sec);
    LeftmostIs(matchAt, text, p);
  }

  /** An empty body followed by a blank line and the stop marker: the capture is empty. */
  lemma EmptyCapture(text: string, h: nat, stop: string, rest: string, post: string)
    requires |stop| > 0 && stop[0] != '\n'
    requires post == "\n\n" + stop + rest && At(text, h, post)
    ensures h + 2 <= |text| && text[h + 2..CaptureEnd(text, h + 2, Some(stop))] == []
  {
    BlankLineThenStop(text, h, stop, rest, post);
    StopAfterNewlines(text, h + 2, 0, stop);
  }

  /** A body followed by a blank line and the stop marker, or by the end of the text, is captured whole. */
  lemma BodyCapture(text: string, h: nat, body: string, sec: Section, post: string)
    requires WellShaped(sec)
    requires At(text, h, body) && At(text, h + |body|, post)
    requires IsTrimmed(body)
    requires sec.stop.Some? ==> forall k :: 0 <= k < |body| ==> body[k] != sec.stop.value[0]
    requires sec.stop.Some? ==> exists rest :: post == "\n\n" + sec.stop.value + rest
    requires sec.stop.None? ==> h + |body| + |post| == |text| && post == []
    ensures text[h..CaptureEnd(text, h, sec.stop)] == body
  {
    CaptureEndsAtBody(text, h, body, sec, post);
  }

  /** The rendered header is the leftmost one, so the capture starts where `CaptureStart` says. */
  lemma Located(text: string, pre: string, sec: Section, body: string, post: string, c: nat)
    requires WellShaped(sec)
    requires |text| == |pre| + |HeaderText(sec)| + |body| + |post|
    requires At(text, 0, pre) && At(text, |pre|, HeaderText(sec))
    requires At(text, |pre| + |HeaderText(sec)|, body) && At(text, |pre| + |HeaderText(sec)| + |body|, post)
    requires forall k :: 0 <= k < |pre| ==> pre[k] != sec.marker[0]
    requires IsTrimmed(body)
    requires sec.stop.Some? ==> exists rest :: post == "\n\n" + sec.stop.value + rest
    requires sec.stop.None? ==> post == []
    requires c == CaptureStart(|pre| + |HeaderText(sec)|, body, sec)
    ensures c <= |text| && FindSection(text, sec) == Some(text[c..CaptureEnd(text, c, sec.stop)])
  {
    NoHeaderBefore(text, pre, sec);
    HeaderMatches(text, |pre|, sec, body, post);
    FoundAt(text, sec, |pre|, c);
  }

  /** `SectionFound`, on the layout given piece by piece. */
  lemma SectionFoundAt(text: string, pre: string, sec: Section, body: string, post: string)
    requires WellShaped(sec)
    requires |text| == |pre| + |HeaderText(sec)| + |body| + |post|
    requires At(text, 0, pre) && At(text, |pre|, HeaderText(sec))
    requires At(text, |pre| + |HeaderText(sec)|, body) && At(text, |pre| + |HeaderText(sec)| + |body|, post)
    requires forall k :: 0 <= k < |pre| ==> pre[k] != sec.marker[0]
    requires IsTrimmed(body)
    requires sec.stop.Some? ==> exists rest :: post == "\n\n" + sec.stop.value + rest
    requires sec.stop.None? ==> post == []
    requires sec.stop.Some? ==> forall k :: 0 <= k < |body| ==> body[k] != sec.stop.value[0]
    ensures FindSection(text, sec) == Some(body)
  {
    var h := |pre| + |HeaderText(sec)|;
    if |body| > 0 || sec.stop.None? {
      BodyCapture(text, h, body, sec, post);
      Located(text, pre, sec, body, post, h);
    } else {
      var rest :| post == "\n\n" + sec.stop.value + rest;
      EmptyCapture(text, h, sec.stop.value, rest, post);
      Located(text, pre, sec, body, post, h + 2);
    }
  }

  /**
   * A section written as `HeaderText(sec) + body` after a prefix without its marker, and
   * followed by a blank line and the next marker, is found with exactly `body` as capture.
   */
  lemma SectionFound(text: string, pre: string, sec: Section, body: string, post: string)
    requires WellShaped(sec)
    requires text == pre + HeaderText(sec) + body + post
    requires forall k :: 0 <= k < |pre| ==> pre[k] != sec.marker[0]
    requires IsTrimmed(body)
    requires sec.stop.Some? ==> forall k :: 0 <= k < |body| ==> body[k] != sec.stop.value[0]
    requires sec.stop.Some? ==> exists rest :: post == "\n\n" + sec.stop.value + rest
    requires sec.stop.None? ==> post == []
    ensures FindSection(text, sec) == Some(body)
  {
    Pieces(text, pre, HeaderText(sec), body, post);
    SectionFoundAt(text, pre, sec, body, post);
  }

  // ---------------------------------------------------------------- the whole card

  /** No character of `s` is `ch`. */
  predicate Lacks(s: string, ch: char) {
    forall k :: 0 <= k < |s| ==> s[k] != ch
  }

  lemma LacksConcat(a: string, b: string, ch: char)
    requires Lacks(a, ch) && Lacks(b, ch)
    ensures Lacks(a + b, ch)
  {
  }

  /** The three section constants have the shape the section lemmas need. */
  lemma SectionsWellShaped()
    ensures WellShaped(FocusSection) && WellShaped(ForbiddenSection) && WellShaped(ReasonSection)
  {
  }

  /** The headers before the forbidden section lack its marker; those before the reason section lack the reason marker. */
  lemma HeadersLackLaterMarkers()
    ensures Lacks(HeaderText(FocusSection), '\U{274C}') && Lacks("\n\n", '\U{274C}')
    ensures Lacks(HeaderText(FocusSection), '\U{2139}') && Lacks(HeaderText(ForbiddenSection), '\U{2139}')
    ensures Lacks("\n\n", '\U{2139}')
  {
  }

  /** What follows the focus field in a rendered card starts with a blank line and the cross mark. */
  lemma AfterFocus(c: Card, post: string)
    requires post == "\n\n" + HeaderText(ForbiddenSection) + c.forbidden + "\n\n" + HeaderText(ReasonSection) + c.reason
    ensures Render(c) == [] + HeaderText(FocusSection) + c.focus + post
    ensures post == "\n\n" + ForbiddenMarker + (HeaderText(ForbiddenSection)[1..] + c.forbidden + "\n\n" + HeaderText(ReasonSection) + c.reason)
  {
    var hx := HeaderText(ForbiddenSection);
    assert hx == ForbiddenMarker + hx[1..];
  }

  /** The focus section of a rendered card captures the focus field. */
  lemma FocusFound(c: Card)
    requires Carriable(c.focus) && Carriable(c.forbidden) && Carriable(c.reason)
    ensures FindSection(Render(c), FocusSection) == Some(c.focus)
  {
    SectionsWellShaped();
    var post := "\n\n" + HeaderText(ForbiddenSection) + c.forbidden + "\n\n" + HeaderText(ReasonSection) + c.reason;
    AfterFocus(c, post);
    SectionFound(Render(c), [], FocusSection, c.focus, post);
  }

  /** The forbidden section of a rendered card captures the forbidden field. */
  lemma ForbiddenFound(c: Card)
    requires Carriable(c.focus) && Carriable(c.forbidden) && Carriable(c.reason)
    ensures FindSection(Render(c), ForbiddenSection) == Some(c.forbidden)
  {
    SectionsWellShaped();
    HeadersLackLaterMarkers();
    var hf := HeaderText(FocusSection);
    var pre := hf + c.focus + "\n\n";
    LacksConcat(hf, c.focus, '\U{274C}');
    LacksConcat(hf + c.focus, "\n\n", '\U{274C}');
    var post := "\n\n" + HeaderText(ReasonSection) + c.reason;
    assert post == "\n\n" + ReasonMarker + (" " + ReasonSection.title + "\U{FF1A}\n" + c.reason);
    assert Render(c) == pre + HeaderText(ForbiddenSection) + c.forbidden + post;
    SectionFound(Render(c), pre, ForbiddenSection, c.forbidden, post);
  }

  /** The reason section of a rendered card captures the reason field. */
  lemma ReasonFound(c: Card)
    requires Carriable(c.focus) && Carriable(c.forbidden) && Carriable(c.reason)
    ensures FindSection(Render(c), ReasonSection) == Some(c.reason)
  {
    SectionsWellShaped();
    HeadersLackLaterMarkers();
    var hf, hx := HeaderText(FocusSection), HeaderText(ForbiddenSection);
    var pre := hf + c.focus + "\n\n" + hx + c.forbidden + "\n\n";
    LacksConcat(hf, c.focus, '\U{2139}');
    LacksConcat(hf + c.focus, "\n\n", '\U{2139}');
    LacksConcat(hf + c.focus + "\n\n", hx, '\U{2139}');
    LacksConcat(hf + c.focus + "\n\n" + hx, c.forbidden, '\U{2139}');
    LacksConcat(hf + c.focus + "\n\n" + hx + c.forbidden, "\n\n", '\U{2139}');
    assert Render(c) == pre + HeaderText(ReasonSection) + c.reason + [];
    SectionFound(Render(c), pre, ReasonSection, c.reason, []);
  }

  /**
   * A card whose fields are trimmed and free of the marker characters survives being written
   * in the requested layout and parsed back.
   */
  lemma ParseRender(c: Card)
    requires Carriable(c.focus) && Carriable(c.forbidden) && Carriable(c.reason)
    ensures ParseDailyCard(Render(c)) == Some(c)
  {
    FocusFound(c);
    ForbiddenFound(c);
    ReasonFound(c);
    TrimOfTrimmed(c.focus);
    TrimOfTrimmed(c.forbidden);
    TrimOfTrimmed(c.reason);
  }

  /** Empty sections are accepted: the card of three empty fields parses back to itself. */
  lemma EmptySectionsAccepted()
    ensures ParseDailyCard(Render(Card("", "", ""))) == Some(Card("", "", ""))
  {
    ParseRender(Card("", "", ""));
  }

  /** A reason section between two carriable fields is trimmed and free of the cross mark. */
  lemma AbsorbedBody(a: string, b: string, body: string)
    requires |a| > 0 && |b| > 0 && Carriable(a) && Carriable(b)
    requires body == a + "\n\n" + HeaderText(ReasonSection) + b
    ensures IsTrimmed(body) && Lacks(body, '\U{274C}')
  {
    assert Lacks(HeaderText(ReasonSection), '\U{274C}') && Lacks("\n\n", '\U{274C}');
    LacksConcat(a, "\n\n", '\U{274C}');
    LacksConcat(a + "\n\n", HeaderText(ReasonSection), '\U{274C}');
    LacksConcat(a + "\n\n" + HeaderText(ReasonSection), b, '\U{274C}');
    assert body[0] == a[0] && body[|body| - 1] == b[|b| - 1];
  }

  /**
   * Sections out of order: when the reason section is written before the forbidden one, the
   * focus capture runs on to the cross mark and swallows the reason section whole.
   */
  lemma OutOfOrderAbsorbed(a: string, b: string, x: string)
    requires |a| > 0 && |b| > 0 && Carriable(a) && Carriable(b)
    ensures var body := a + "\n\n" + HeaderText(ReasonSection) + b;
      FindSection(HeaderText(FocusSection) + body + "\n\n" + HeaderText(ForbiddenSection) + x, FocusSection) == Some(body)
  {
    SectionsWellShaped();
    var body := a + "\n\n" + HeaderText(ReasonSection) + b;
    var post := "\n\n" + HeaderText(ForbiddenSection) + x;
    var text := HeaderText(FocusSection) + body + "\n\n" + HeaderText(ForbiddenSection) + x;
    assert post == "\n\n" + ForbiddenMarker + (HeaderText(ForbiddenSection)[1..] + x);
    AbsorbedBody(a, b, body);
    assert text == [] + HeaderText(FocusSection) + body + post;
    SectionFound(text, [], FocusSection, body, post);
  }
}
