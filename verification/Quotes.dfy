/** Quoted strings of the command line: the search for the closing quote and the unescaping of the text in place. */
module Quotes {
  import opened Schema

  /** What a backslash and `c` stand for; other escapes keep the backslash. */
  function Escaped(c: char): string {
    if c == 't' then "\t" else if c == 'n' then "\n" else if c == 'r' then "\r"
    else if c == 'a' then "\U{07}" else if c == 'b' then "\U{08}" else if c == 'e' then "\U{1B}"
    else if c == 'f' then "\U{0C}" else if c == 'v' then "\U{0B}"
    else if c == ' ' || c == '"' || c == '?' || c == '\'' || c == '\\' then [c]
    else ['\\', c]
  }

  /** Left to right; a lone backslash at the end stays. */
  function Unescape(s: string): string {
    if s == "" then ""
    else if s[0] == '\\' && |s| > 1 then Escaped(s[1]) + Unescape(s[2..])
    else [s[0]] + Unescape(s[1..])
  }

  predicate Complete(s: string) { s == "" || s[|s| - 1] != '\\' }

  /** The first `close` from position `from` on, before the terminator, that no backslash precedes. */
  function FindClose(b: seq<char>, from: nat, close: char): (r: Option<nat>)
    requires 1 <= from <= |b| && close != '\0'
    ensures r.Some? ==> from <= r.value < |b| && b[r.value] == close && b[r.value - 1] != '\\'
    ensures r.Some? ==> forall i | from <= i < r.value :: b[i] != '\0' && (b[i] != close || b[i - 1] == '\\')
    ensures r.None? ==> forall i | from <= i < |b| && b[i] == close && b[i - 1] != '\\' :: '\0' in b[from..i]
    decreases |b| - from
  {
    if from == |b| || b[from] == '\0' then
      assert from < |b| ==> forall i | from < i < |b| :: b[from..i][0] == '\0';
      None
    else if b[from] == close && b[from - 1] != '\\' then Some(from)
    else
      var r := FindClose(b, from + 1, close);
      assert forall i | from < i < |b| :: b[from..i] == [b[from]] + b[from + 1..i];
      r
  }

  lemma FindCloseStep(b: seq<char>, from: nat, close: char)
    requires 1 <= from < |b| && close != '\0' && b[from] != '\0' && (b[from] != close || b[from - 1] == '\\')
    ensures FindClose(b, from, close) == FindClose(b, from + 1, close)
  {
  }

  lemma FindCloseEnd(b: seq<char>, from: nat, close: char)
    requires 1 <= from <= |b| && close != '\0'
    ensures from == |b| || b[from] == '\0' ==> FindClose(b, from, close) == None
    ensures from < |b| && b[from] == close ==>
              (FindClose(b, from, close) == Some(from) <==> b[from - 1] != '\\')
  {
  }

  /** parse_quote from the opening quote at `at` on: None when no quote closes the text.  On success the unescaped
      text stands, terminated, where the quoted text began, and the next token begins behind the closing quote. */
  method ParseQuote(buf: array<char>, at: nat) returns (next: Option<nat>)
    requires at < buf.Length && (buf[at] == '"' || buf[at] == '\'') && '\0' in buf[at..]
    modifies buf
    ensures var close := FindClose(old(buf[..]), at + 1, old(buf[at]));
            if close.None? then next == None && buf[..] == old(buf[..])
            else
              var text := Unescape(old(buf[..])[at + 1..close.value]);
              && next == Some(close.value + 1)
              && at + 1 + |text| <= close.value
              && buf[at + 1..at + 1 + |text|] == text && buf[at + 1 + |text|] == '\0'
              && buf[..at + 1] == old(buf[..])[..at + 1]
              && buf[close.value + 1..] == old(buf[..])[close.value + 1..]
  {
    hide FindClose, Unescape;
    ghost var b := buf[..];
    var close := buf[at];
    var start := at + 1;
    var cur := start;
    while cur < buf.Length && buf[cur] != '\0' && !(buf[cur] == close && buf[cur - 1] != '\\')
      invariant start <= cur <= buf.Length && buf[..] == b
      invariant FindClose(b, start, close) == FindClose(b, cur, close)
    {
      FindCloseStep(b, cur, close);
      cur := cur + 1;
    }
    FindCloseEnd(b, cur, close);
    if cur == buf.Length || buf[cur] == '\0' {
      return None;
    }
    var end := UnescapeInPlace(buf, start, cur);
    next := Some(cur + 1);
  }

  /** `*wcur = ...` for one or two characters. */
  method Put(buf: array<char>, w: nat, x: string)
    requires 1 <= |x| <= 2 && w + |x| <= buf.Length
    modifies buf
    ensures buf[..w] == old(buf[..w]) && buf[w..w + |x|] == x && buf[w + |x|..] == old(buf[w + |x|..])
  {
    buf[w] := x[0];
    if |x| == 2 {
      buf[w + 1] := x[1];
    }
  }

  /** The state of the loop: `done` is written up to `w`, the text from `r` to `close` is still to be read. */
  ghost predicate Midway(b: seq<char>, b0: seq<char>, start: nat, close: nat, r: nat, w: nat, done: string) {
    && 1 <= start <= w <= r <= close < |b0| && |b| == |b0|
    && b[..start] == b0[..start] && b[start..w] == done && b[r..close] == b0[r..close] && b[close] == '\0'
    && b[close + 1..] == b0[close + 1..]
  }

  lemma MidwayStart(b0: seq<char>, b: seq<char>, start: nat, close: nat)
    requires 1 <= start <= close < |b0| && b == b0[close := '\0']
    ensures Midway(b, b0, start, close, start, start, "")
  {
  }

  /** What the loop reads next. */
  lemma MidwayView(b: seq<char>, b0: seq<char>, start: nat, close: nat, r: nat, w: nat, done: string)
    requires Midway(b, b0, start, close, r, w, done)
    ensures 1 <= start <= w <= r <= close < |b0| == |b|
    ensures b[r] == if r < close then b0[r] else '\0'
    ensures r + 1 < close ==> b[r + 1] == b0[r + 1]
  {
    assert r < close ==> b[r] == b[r..close][0];
    assert r + 1 < close ==> b[r + 1] == b[r..close][1];
  }

  lemma MidwayEnd(
    b: seq<char>, b': seq<char>, b0: seq<char>, start: nat, close: nat, r: nat, w: nat, done: string)
    requires Midway(b, b0, start, close, r, w, done) && b' == b[w := '\0']
    ensures b'[start..w] == done && b'[w] == '\0' && b'[..start] == b0[..start] && b'[close + 1..] == b0[close + 1..]
    ensures w == start + |done|
  {
    assert b'[start..w] == b[start..w] && b'[..start] == b[..start] && b'[close + 1..] == b[close + 1..];
  }

  /** Writing no further than what has been read keeps the state. */
  lemma MidwayStep(
    b: seq<char>, b': seq<char>, b0: seq<char>, start: nat, close: nat, r: nat, w: nat, done: string,
    x: string, n: nat)
    requires Midway(b, b0, start, close, r, w, done) && |x| <= n && r + n <= close
    requires |b'| == |b| && b'[..w] == b[..w] && b'[w..w + |x|] == x && b'[w + |x|..] == b[w + |x|..]
    ensures Midway(b', b0, start, close, r + n, w + |x|, done + x)
  {
    var k := w + |x|;
    SameBefore(b, b', w);
    SameBehind(b, b', k);
    assert b[r..close][n..] == b[r + n..close] && b0[r..close][n..] == b0[r + n..close];
    assert b'[start..k] == b'[start..w] + b'[w..k];
    assert b'[start..w] == b[start..w] && b'[..start] == b[..start];
    assert b'[r + n..close] == b[r + n..close] && b'[close + 1..] == b[close + 1..];
  }

  lemma SameBefore(b: seq<char>, b': seq<char>, w: nat)
    requires w <= |b| == |b'| && b'[..w] == b[..w]
    ensures forall i | 0 <= i < w :: b'[i] == b[i]
  {
    forall i | 0 <= i < w ensures b'[i] == b[i] {
      assert b'[..w][i] == b[..w][i];
    }
  }

  lemma SameBehind(b: seq<char>, b': seq<char>, k: nat)
    requires k <= |b| == |b'| && b'[k..] == b[k..]
    ensures forall i | k <= i < |b| :: b'[i] == b[i]
  {
    forall i | k <= i < |b| ensures b'[i] == b[i] {
      assert b'[k..][i - k] == b[k..][i - k];
    }
  }

  lemma UnescapeStep(s: string, done: string)
    requires s != "" && Complete(s)
    ensures s[0] == '\\' ==> |s| > 1 && Complete(s[2..])
                             && done + Unescape(s) == done + Escaped(s[1]) + Unescape(s[2..])
    ensures s[0] != '\\' ==> Complete(s[1..]) && done + Unescape(s) == done + [s[0]] + Unescape(s[1..])
  {
    hide Escaped;
    if s[0] == '\\' {
      assert done + (Escaped(s[1]) + Unescape(s[2..])) == done + Escaped(s[1]) + Unescape(s[2..]);
    } else {
      assert done + ([s[0]] + Unescape(s[1..])) == done + [s[0]] + Unescape(s[1..]);
    }
  }

  lemma UnescapeStepAt(b: seq<char>, r: nat, close: nat, done: string)
    requires r < close <= |b| && Complete(b[r..close])
    ensures b[r] == '\\' ==>
              && r + 1 < close && Complete(b[r + 2..close])
              && done + Unescape(b[r..close]) == done + Escaped(b[r + 1]) + Unescape(b[r + 2..close])
    ensures b[r] != '\\' ==>
              && Complete(b[r + 1..close])
              && done + Unescape(b[r..close]) == done + [b[r]] + Unescape(b[r + 1..close])
  {
    hide Escaped, Unescape;
    var s := b[r..close];
    UnescapeStep(s, done);
    assert s[0] == b[r] && s[1..] == b[r + 1..close];
    assert r + 1 < close ==> s[1] == b[r + 1] && s[2..] == b[r + 2..close];
  }

  /** The loop with a read and a write cursor; the write cursor never passes the read cursor, and the text never
      ends in a backslash, so no escape reaches over the terminator. */
  method UnescapeInPlace(buf: array<char>, start: nat, close: nat) returns (end: nat)
    requires 1 <= start <= close < buf.Length && '\0' !in buf[start..close] && buf[close - 1] != '\\'
    modifies buf
    ensures end == start + |Unescape(old(buf[..])[start..close])| <= close
    ensures buf[start..end] == Unescape(old(buf[..])[start..close]) && buf[end] == '\0'
    ensures buf[..start] == old(buf[..])[..start] && buf[close + 1..] == old(buf[..])[close + 1..]
  {
    hide Unescape, Escaped, Midway;
    ghost var b0 := buf[..];
    buf[close] := '\0';
    var r: nat, w: nat := start, start;
    ghost var done := "";
    MidwayStart(b0, buf[..], start, close);
    assert Complete(b0[start..close]);
    while buf[r] != '\0'
      invariant r <= close && Midway(buf[..], b0, start, close, r, w, done)
      invariant Complete(b0[r..close]) && Unescape(b0[start..close]) == done + Unescape(b0[r..close])
      decreases close - r
    {
      ghost var b := buf[..];
      MidwayView(b, b0, start, close, r, w, done);
      UnescapeStepAt(b0, r, close, done);
      var x, n := [buf[r]], 1;
      if buf[r] == '\\' {
        x, n := Escaped(buf[r + 1]), 2;
        EscapedLength(buf[r + 1]);
      }
      Put(buf, w, x);
      MidwayStep(b, buf[..], b0, start, close, r, w, done, x, n);
      r, w, done := r + n, w + |x|, done + x;
    }
    MidwayView(buf[..], b0, start, close, r, w, done);
    AtEnd(b0, start, close, r);
    UnescapeNothing();
    assert b0[r..close] == "" && done + "" == done;
    ghost var b := buf[..];
    buf[w] := '\0';
    MidwayEnd(b, buf[..], b0, start, close, r, w, done);
    end := w;
  }

  lemma EscapedLength(c: char)
    ensures 1 <= |Escaped(c)| <= 2
  {
  }

  lemma UnescapeNothing()
    ensures Unescape("") == ""
  {
  }

  lemma AtEnd(b0: seq<char>, start: nat, close: nat, r: nat)
    requires start <= r <= close < |b0| && '\0' !in b0[start..close]
    ensures r < close ==> b0[r] != '\0'
  {
    assert r < close ==> b0[r] == b0[start..close][r - start];
  }

  // ---------------------------------------------------------------- quoting and reading back

  /** The letter of a control character, or the character itself. */
  function Letter(c: char): char {
    if c == '\t' then 't' else if c == '\n' then 'n' else if c == '\r' then 'r'
    else if c == '\U{07}' then 'a' else if c == '\U{08}' then 'b' else if c == '\U{1B}' then 'e'
    else if c == '\U{0C}' then 'f' else if c == '\U{0B}' then 'v' else c
  }

  function EscapeOne(c: char, close: char): string {
    if c == '\\' || c == close || Letter(c) != c then ['\\', Letter(c)] else [c]
  }

  /** A text as it is written between the quotes `close`. */
  function Escape(s: string, close: char): string {
    if s == "" then "" else EscapeOne(s[0], close) + Escape(s[1..], close)
  }

  /** Unescaping undoes escaping. */
  lemma {:induction false} UnescapeEscape(s: string, close: char)
    requires close == '"' || close == '\''
    ensures Unescape(Escape(s, close)) == s
  {
    if s != "" {
      UnescapeEscape(s[1..], close);
      UnescapeOne(s[0], close, Escape(s[1..], close));
      assert [s[0]] + s[1..] == s;
    }
  }

  lemma UnescapeOne(c: char, close: char, rest: string)
    requires close == '"' || close == '\''
    ensures Unescape(EscapeOne(c, close) + rest) == [c] + Unescape(rest)
  {
    var t := EscapeOne(c, close) + rest;
    if |EscapeOne(c, close)| == 2 {
      assert t[0] == '\\' && t[1] == Letter(c) && t[2..] == rest;
    } else {
      assert t[0] == c && t[1..] == rest;
    }
  }

  /** No quote inside an escaped text is taken for the closing one. */
  lemma {:induction false} NoEarlyClose(b: seq<char>, at: nat, s: string, close: char)
    requires (close == '"' || close == '\'') && '\0' !in s && 1 <= at
    requires at + |Escape(s, close)| <= |b| && b[at..at + |Escape(s, close)|] == Escape(s, close)
    ensures FindClose(b, at, close) == FindClose(b, at + |Escape(s, close)|, close)
    decreases |s|
  {
    hide FindClose, EscapeOne;
    if s == "" {
      assert Escape(s, close) == "";
    } else {
      var head, tail, mid := EscapeOne(s[0], close), Escape(s[1..], close), at + |EscapeOne(s[0], close)|;
      assert Escape(s, close) == head + tail;
      hide Escape;
      Halves(b, at, head, tail);
      SkipOne(b, at, s[0], close);
      NoEarlyClose(b, mid, s[1..], close);
    }
  }

  lemma Halves(b: seq<char>, at: nat, x: string, y: string)
    requires at + |x + y| <= |b| && b[at..at + |x + y|] == x + y
    ensures b[at..at + |x|] == x && b[at + |x|..at + |x| + |y|] == y
  {
    var all := b[at..at + |x + y|];
    assert b[at..at + |x|] == all[..|x|];
    assert b[at + |x|..at + |x| + |y|] == all[|x|..];
  }

  lemma SkipOne(b: seq<char>, at: nat, c: char, close: char)
    requires (close == '"' || close == '\'') && c != '\0' && 1 <= at
    requires at + |EscapeOne(c, close)| <= |b| && b[at..at + |EscapeOne(c, close)|] == EscapeOne(c, close)
    ensures FindClose(b, at, close) == FindClose(b, at + |EscapeOne(c, close)|, close)
  {
    hide FindClose;
    var head := EscapeOne(c, close);
    assert b[at] == b[at..at + |head|][0];
    FindCloseStep(b, at, close);
    if |head| == 2 {
      assert b[at + 1] == b[at..at + |head|][1];
      FindCloseStep(b, at + 1, close);
    }
  }

  /** A quoted text is closed at its own quote, and so read back, if and only if it does not end in a backslash: the
      search takes an escaped backslash before the closing quote for an escape of the quote. */
  lemma QuoteRoundTrip(s: string, close: char, post: seq<char>)
    requires (close == '"' || close == '\'') && '\0' !in s
    ensures var b := [close] + Escape(s, close) + [close] + post;
            var end := 1 + |Escape(s, close)|;
            && (FindClose(b, 1, close) == Some(end) <==> Complete(s))
            && Unescape(b[1..end]) == s
  {
    hide FindClose, Unescape, Escape;
    var e := Escape(s, close);
    var b := [close] + e + [close] + post;
    var end := 1 + |e|;
    assert b[1..end] == e && b[end] == close;
    NoEarlyClose(b, 1, s, close);
    UnescapeEscape(s, close);
    EscapeEnd(s, close);
    assert b[end - 1] == if e == "" then close else e[|e| - 1];
    FindCloseEnd(b, end, close);
  }

  lemma {:induction false} EscapeEnd(s: string, close: char)
    requires close == '"' || close == '\''
    ensures s == "" ==> Escape(s, close) == ""
    ensures s != "" ==> Escape(s, close) != ""
                        && (Escape(s, close)[|Escape(s, close)| - 1] == '\\' <==> s[|s| - 1] == '\\')
  {
    if |s| > 1 {
      EscapeEnd(s[1..], close);
    } else if |s| == 1 {
      assert s[1..] == "";
    }
  }

  /** What each escape stands for; other characters keep their backslash. */
  lemma Escapes(c: char)
    ensures Escaped('t') == ['\U{09}'] && Escaped('n') == ['\U{0A}'] && Escaped('r') == ['\U{0D}']
    ensures Escaped('a') == ['\U{07}'] && Escaped('b') == ['\U{08}'] && Escaped('e') == ['\U{1B}']
    ensures Escaped('f') == ['\U{0C}'] && Escaped('v') == ['\U{0B}']
    ensures c in " \"?'\\" ==> Escaped(c) == [c]
    ensures c !in "tnrabefv \"?'\\" ==> Escaped(c) == ['\\', c]
  {
  }
}
