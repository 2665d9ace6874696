/** The comment path of the tokenizer, byte by byte (xnet/html/token.go). */
module HtmlTokenizer {
  import opened Frames
  import opened HtmlEscape
  import opened HtmlComment

  /** How many dashes s ends with. */
  function Trailing(s: Text): (n: nat)
    ensures n <= |s| && (n < |s| ==> s[|s| - 1 - n] != DASH) && forall k :: |s| - n <= k < |s| ==> s[k] == DASH
  {
    if s == [] || s[|s| - 1] != DASH then 0 else 1 + Trailing(s[..|s| - 1])
  }

  predicate HasSuffix(s: Text, suffix: Text) { |s| >= |suffix| && s[|s| - |suffix|..] == suffix }

  /** How many bytes at the end of s an end of input cuts off. */
  function CutOff(s: Text): (n: nat)
    ensures n <= |s|
  {
    if HasSuffix(s, [DASH, DASH, BANG]) then 3
    else if HasSuffix(s, [DASH, DASH]) then 2
    else if HasSuffix(s, [DASH]) then 1
    else 0
  }

  /** The states of the standard that the two variables of the loop of
      readComment stand for. */
  predicate StateOk(state: State, dash: nat, beginning: bool) {
    match state
    case Start => dash == 0 && beginning
    case StartDash => dash == 1 && beginning
    case Comment => dash == 0 && !beginning
    case LessThan => dash == 0 && !beginning
    case LessThanBang => dash == 0 && !beginning
    case LessThanBangDash => dash == 1 && !beginning
    case EndDash => dash == 1 && !beginning
    case LessThanBangDashDash => dash >= 2 && !beginning
    case End => dash >= 2
    case EndBang => false
  }

  lemma StateStep(state: State, dash: nat, beginning: bool, c: Byte)
    requires StateOk(state, dash, beginning) && !(c == GT && (dash >= 2 || beginning)) && !(c == BANG && dash >= 2)
    ensures Feed(state, c).Switch?
            && StateOk(Feed(state, c).state, if c == DASH then dash + 1 else 0, beginning && c == DASH)
  {
    hide Pending;
  }

  /** After a '!' that follows two dashes. */
  lemma StateAfterBang(state: State, dash: nat, beginning: bool, c: Byte)
    requires StateOk(state, dash, beginning) && dash >= 2 && c != GT
    ensures Feed(state, BANG).Switch? && Feed(state, BANG).state == EndBang
    ensures Feed(EndBang, c).Switch? && StateOk(Feed(EndBang, c).state, if c == DASH then 1 else 0, false)
  {
    hide Pending;
  }

  lemma StateCloses(state: State, dash: nat, beginning: bool)
    requires StateOk(state, dash, beginning)
    ensures Closing(state) <==> dash >= 2 || beginning
    ensures !state.EndBang? && |Pending(state)| == if dash >= 2 then 2 else dash
  {
  }

  /** The loop of readComment against the standard: after reading the bytes seen
      the loop has counted dash dashes and is still at the beginning or not, and
      the standard is in state with the data collected. */
  ghost predicate Agrees(seen: Text, dash: nat, beginning: bool, state: State, data: Text) {
    && data + Pending(state) == seen && dash == Trailing(seen) && !HasSuffix(seen, [DASH, DASH, BANG])
    && (beginning <==> dash == |seen|) && StateOk(state, dash, beginning)
  }

  lemma AgreesAtStart()
    ensures Agrees([], 0, true, Start, [])
  {
  }

  lemma TrailingStep(s: Text, c: Byte)
    ensures Trailing(s + [c]) == if c == DASH then Trailing(s) + 1 else 0
  {
    assert (s + [c])[..|s|] == s;
  }

  /** One more byte, unless it ends the comment or is a '!' after two dashes. */
  lemma AgreesStep(seen: Text, dash: nat, beginning: bool, state: State, data: Text, c: Byte)
    requires Agrees(seen, dash, beginning, state, data)
    requires !(c == GT && (dash >= 2 || beginning)) && !(c == BANG && dash >= 2)
    ensures var a := Feed(state, c);
            a.Switch? && Agrees(seen + [c], if c == DASH then dash + 1 else 0, beginning
              && c == DASH, a.state, data + a.append)
  {
    hide Feed, Pending, Trailing, HasSuffix, StateOk;
    StateStep(state, dash, beginning, c);
    FeedFacts(state, c);
    TrailingStep(seen, c);
    Regrouped(data, Pending(state), Feed(state, c).append, Pending(Feed(state, c).state), [c]);
    if c == BANG { NoBangSuffix(seen); } else { NotBangSuffix(seen, c); }
  }

  lemma Regrouped(data: Text, p: Text, append: Text, q: Text, c: Text)
    requires append + q == p + c
    ensures data + append + q == data + p + c
  {
    assert data + append + q == data + (append + q) == data + (p + c);
  }

  lemma NoBangSuffix(seen: Text)
    requires Trailing(seen) < 2
    ensures !HasSuffix(seen + [BANG], [DASH, DASH, BANG])
  {
    var s := seen + [BANG];
    if |s| >= 3 { assert s[|s| - 3..][0] == seen[|seen| - 2] && s[|s| - 3..][1] == seen[|seen| - 1]; }
  }

  lemma NotBangSuffix(seen: Text, c: Byte)
    requires c != BANG
    ensures !HasSuffix(seen + [c], [DASH, DASH, BANG])
  {
    var s := seen + [c];
    if |s| >= 3 { assert s[|s| - 3..][2] == c; }
  }

  /** The bytes "!" and c after two dashes, when c does not end the comment. */
  lemma AgreesAfterBang(seen: Text, dash: nat, beginning: bool, state: State, data: Text, c: Byte)
    requires Agrees(seen, dash, beginning, state, data) && dash >= 2 && c != GT
    ensures Feed(state, BANG).Switch? && Feed(state, BANG).state == EndBang && Feed(EndBang, c).Switch?
    ensures var a := Feed(state, BANG); var b := Feed(EndBang, c);
            Agrees(seen + [BANG] + [c], if c == DASH then 1 else 0, false, b.state, data + a.append + b.append)
  {
    hide Feed, Pending, Trailing, HasSuffix, StateOk;
    StateAfterBang(state, dash, beginning, c);
    var a, b := Feed(state, BANG), Feed(EndBang, c);
    FeedFacts(state, BANG);
    FeedFacts(EndBang, c);
    TrailingStep(seen, BANG);
    TrailingStep(seen + [BANG], c);
    Regrouped(data, Pending(state), a.append, Pending(EndBang), [BANG]);
    Regrouped(data + a.append, Pending(EndBang), b.append, Pending(b.state), [c]);
    if c == BANG { NoBangSuffix(seen + [BANG]); } else { NotBangSuffix(seen + [BANG], c); }
  }

  /** At the end of the input the data is what has been seen, less the bytes cut
      off. */
  lemma CutOffIsPending(seen: Text, dash: nat, beginning: bool, state: State, data: Text)
    requires Agrees(seen, dash, beginning, state, data)
    ensures data == seen[..|seen| - CutOff(seen)]
  {
    hide Pending, StateOk;
    StateCloses(state, dash, beginning);
    SuffixDashes(seen);
  }

  lemma SuffixOne(s: Text, a: Byte)
    ensures HasSuffix(s, [a]) <==> |s| >= 1 && s[|s| - 1] == a
  {
    if |s| >= 1 { assert s[|s| - 1..] == [s[|s| - 1]]; }
  }

  lemma SuffixTwo(s: Text, a: Byte, b: Byte)
    ensures HasSuffix(s, [a, b]) <==> |s| >= 2 && s[|s| - 2] == a && s[|s| - 1] == b
  {
    if |s| >= 2 { assert s[|s| - 2..] == [s[|s| - 2], s[|s| - 1]]; }
  }

  lemma TrailingOne(s: Text)
    ensures Trailing(s) >= 1 <==> |s| >= 1 && s[|s| - 1] == DASH
  {
  }

  lemma {:induction false} TrailingTwo(s: Text)
    ensures Trailing(s) >= 2 <==> |s| >= 2 && s[|s| - 2] == DASH && s[|s| - 1] == DASH
  {
    if |s| >= 1 && s[|s| - 1] == DASH {
      var t := s[..|s| - 1];
      assert Trailing(s) == 1 + Trailing(t);
      hide Trailing;
      TrailingOne(t);
    }
  }

  lemma {:induction false} SuffixDashes(s: Text)
    ensures HasSuffix(s, [DASH, DASH]) <==> Trailing(s) >= 2
    ensures HasSuffix(s, [DASH]) <==> Trailing(s) >= 1
  {
    hide Trailing, HasSuffix;
    SuffixOne(s, DASH);
    SuffixTwo(s, DASH, DASH);
    TrailingOne(s);
    TrailingTwo(s);
  }

  lemma CutOffBang(seen: Text, dash: nat, beginning: bool, state: State, data: Text)
    requires Agrees(seen, dash, beginning, state, data) && dash >= 2
    ensures data == seen[..|seen| - 2] && CutOff(seen + [BANG]) == 3
  {
    hide Pending, StateOk;
    StateCloses(state, dash, beginning);
    var s := seen + [BANG];
    assert s[|s| - 3..] == [seen[|seen| - 2], seen[|seen| - 1], BANG];
  }

  lemma ClosedData(seen: Text, dash: nat, beginning: bool, state: State, data: Text)
    requires Agrees(seen, dash, beginning, state, data) && (dash >= 2 || beginning)
    ensures Closing(state) && data == if |seen| >= 2 then seen[..|seen| - 2] else []
  {
    hide Pending;
    StateCloses(state, dash, beginning);
  }

  class Tokenizer {
    const input: Text      // what the reader provides
    var rawStart: nat
    var rawEnd: nat
    var dataStart: int
    var dataEnd: int
    var err: bool

    constructor (input: Text)
      ensures this.input == input && rawStart == 0 && rawEnd == 0 && !err
    {
      this.input := input;
      rawStart, rawEnd, dataStart, dataEnd, err := 0, 0, 0, 0, false;
    }

    /** readByte; the byte is only meaningful without an error. */
    method ReadByte() returns (c: Byte)
      requires rawEnd <= |input|
      modifies this`rawEnd, this`err
      ensures old(rawEnd) == |input| ==> err && rawEnd == old(rawEnd)
      ensures old(rawEnd) < |input| ==> err == old(err) && rawEnd == old(rawEnd) + 1 && c == input[old(rawEnd)]
    {
      if rawEnd >= |input| {
        err := true;
        return 0;
      }
      c := input[rawEnd];
      rawEnd := rawEnd + 1;
    }

    /** calculateAbruptCommentDataEnd */
    method AbruptEnd() returns (end: int)
      requires rawStart + 4 <= rawEnd <= |input|
      ensures end == rawEnd - CutOff(input[rawStart + 4..rawEnd])
    {
      var raw := input[rawStart..rawEnd];
      raw := raw[4..];
      assert raw == input[rawStart + 4..rawEnd];
      if HasSuffix(raw, [DASH, DASH, BANG]) {
        return rawEnd - 3;
      } else if HasSuffix(raw, [DASH, DASH]) {
        return rawEnd - 2;
      } else if HasSuffix(raw, [DASH]) {
        return rawEnd - 1;
      }
      return rawEnd;
    }

    /** Next, when the input goes on with "<!--": one comment token. */
    method NextComment()
      requires rawEnd + 4 <= |input| && input[rawEnd..rawEnd + 4] == OPEN && !err
      modifies this
      ensures var r := Reference(input, old(rawEnd) + 4, Start, []);
              && rawStart == old(rawEnd) && rawEnd == r.next <= |input| && err == !r.closed
              && dataStart == rawStart + 4 && dataStart <= dataEnd <= rawEnd && input[dataStart..dataEnd] == r.data
    {
      rawStart, dataStart, dataEnd := rawEnd, rawEnd, rawEnd;
      assert input[rawEnd] == OPEN[0] && input[rawEnd + 1] == OPEN[1] && input[rawEnd + 2] == OPEN[2]
        && input[rawEnd + 3] == OPEN[3];
      var c := ReadByte();
      assert c == LT;
      c := ReadByte();
      assert c == BANG;
      ReadMarkupDeclaration();
    }

    /** readMarkupDeclaration, when it sees "--". */
    method ReadMarkupDeclaration()
      requires rawStart + 2 == rawEnd && rawEnd + 2 <= |input| && input[rawEnd] == DASH && input[rawEnd + 1] == DASH
               && !err
      modifies this`rawEnd, this`err, this`dataStart, this`dataEnd
      ensures var r := Reference(input, old(rawEnd) + 2, Start, []);
              && rawEnd == r.next <= |input| && err == !r.closed
              && dataStart == rawStart + 4 && dataStart <= dataEnd <= rawEnd && input[dataStart..dataEnd] == r.data
    {
      dataStart := rawEnd;
      var c0 := ReadByte();
      var c1 := ReadByte();
      assert c0 == DASH && c1 == DASH;
      ReadComment();
    }

    /** Text of a comment token. */
    method Text(t: Entities) returns (text: HtmlEscape.Text)
      requires Fits(t) && 0 <= dataStart <= dataEnd <= |input|
      modifies this`dataStart, this`dataEnd
      ensures text == CommentText(t, old(input[dataStart..dataEnd])) && dataStart == dataEnd == rawEnd
    {
      hide Fits, Newlines, ReplaceNul, Unescaped;
      var data := input[dataStart..dataEnd];
      var s := new Byte[|data|](i requires 0 <= i < |data| => data[i]);
      assert s[..] == data;
      dataStart, dataEnd := rawEnd, rawEnd;
      var n := ConvertNewlines(s);
      var r := ReplaceNul(s[..n]);
      var b := new Byte[|r|](i requires 0 <= i < |r| => r[i]);
      assert b[..] == r;
      var m := Unescape(t, b, false);
      text := b[..m];
    }

    /** readComment: the comment states of the standard, for every input. */
    method ReadComment()
      requires rawStart + 4 == rawEnd <= |input| && !err
      modifies this`rawEnd, this`err, this`dataStart, this`dataEnd
      ensures var r := Reference(input, old(rawEnd), Start, []);
              && rawEnd == r.next <= |input| && err == !r.closed
              && dataStart == old(rawEnd) && dataStart <= dataEnd <= rawEnd && input[dataStart..dataEnd] == r.data
    {
      dataStart := rawEnd;
      ReadCommentLoop();
      if dataEnd < dataStart {
        dataEnd := dataStart;
      }
    }

    /** What has been read of the comment. */
    function Seen(): Text
      requires rawStart + 4 <= rawEnd <= |input|
      reads this
    {
      input[rawStart + 4..rawEnd]
    }

    /** The comment ends here with the data of r. */
    ghost predicate Finished(r: Outcome)
      reads this
    {
      && rawEnd == r.next <= |input| && err == !r.closed && 0 <= dataStart <= rawEnd
      && dataEnd <= rawEnd && r.data == if dataEnd < dataStart then [] else input[dataStart..dataEnd]
    }

    /** The byte after a '!' that follows two dashes. */
    method AfterBang(ghost seen: HtmlEscape.Text, ghost dash: nat, ghost beginning: bool, ghost state: State,
                     ghost data: HtmlEscape.Text)
      returns (done: bool, c: Byte)
      requires rawStart + 4 < rawEnd <= |input| && !err && dataStart == rawStart + 4 && Seen() == seen + [BANG]
      requires Agrees(seen, dash, beginning, state, data) && dash >= 2
      modifies this`rawEnd, this`err, this`dataEnd
      ensures done ==> Finished(Reference(input, old(rawEnd) - 1, state, data))
      ensures !done ==>
                && rawEnd == old(rawEnd) + 1 <= |input| && !err && Seen() == seen + [BANG] + [c]
                && Feed(state, BANG).Switch? && Feed(state, BANG).state == EndBang && Feed(EndBang, c).Switch?
                && var data' := data + Feed(state, BANG).append + Feed(EndBang, c).append;
                && Agrees(seen + [BANG] + [c], if c == DASH then 1 else 0, false, Feed(EndBang, c).state, data')
                && Reference(input, old(rawEnd) - 1, state, data)
                   == Reference(input, rawEnd, Feed(EndBang, c).state, data')
    {
      hide Reference, Agrees, Feed, CutOff;
      CutOffBang(seen, dash, beginning, state, data);
      AgreesAfterBang(seen, dash, beginning, state, data, 0);
      assert input[rawEnd - 1] == Seen()[|seen|];
      ReferenceStep(input, rawEnd - 1, state, data);
      BangKeepsData(seen, dash, beginning, state, data);
      assert data == Seen()[..|seen| - 2] == input[dataStart..dataStart + |seen| - 2];
      c := ReadByte();
      if err {
        AtEndOfInput(input, rawEnd, EndBang, data);
        dataEnd := AbruptEnd();
        return true, c;
      } else if c == GT {
        ReadEnd(input, rawEnd - 1, EndBang, data);
        dataEnd := rawEnd - 4;
        return true, c;
      }
      AgreesAfterBang(seen, dash, beginning, state, data, c);
      ReferenceStep(input, rawEnd - 1, EndBang, data);
      done := false;
    }

    method ReadCommentLoop()
      requires rawStart + 4 == rawEnd <= |input| && !err && dataStart == rawEnd
      modifies this`rawEnd, this`err, this`dataEnd
      ensures Finished(Reference(input, old(rawEnd), Start, []))
    {
      hide Reference, Agrees, Feed, CutOff;
      ghost var state, data := Start, [];
      var dashCount, beginning := 0, true;
      AgreesAtStart();
      assert Seen() == [];
      while true
        invariant rawStart + 4 <= rawEnd <= |input| && !err && dashCount >= 0
        invariant Agrees(Seen(), dashCount, beginning, state, data)
        invariant Reference(input, old(rawEnd), Start, []) == Reference(input, rawEnd, state, data)
        decreases |input| - rawEnd
      {
        ghost var seen := Seen();
        var c := ReadByte();
        if err {
          AtEndOfInput(input, rawEnd, state, data);
          CutOffIsPending(seen, dashCount, beginning, state, data);
          dataEnd := AbruptEnd();
          return;
        }
        assert Seen() == seen + [c];
        if c == GT && (dashCount >= 2 || beginning) {
          ClosedData(seen, dashCount, beginning, state, data);
          ReadEnd(input, rawEnd - 1, state, data);
          dataEnd := rawEnd - 3;
          assert |seen| >= 2 ==> seen[..|seen| - 2] == input[dataStart..dataEnd];
          return;
        }
        if c == BANG && dashCount >= 2 {
          var done, next := AfterBang(seen, dashCount, beginning, state, data);
          if done {
            return;
          }
          ghost var data1 := data + Feed(state, BANG).append;
          state, data := Feed(EndBang, next).state, data1 + Feed(EndBang, next).append;
          dashCount, beginning := if next == DASH then 1 else 0, false;
        } else {
          AgreesStep(seen, dashCount, beginning, state, data, c);
          ReferenceStep(input, rawEnd - 1, state, data);
          state, data := Feed(state, c).state, data + Feed(state, c).append;
          if c == DASH {
            dashCount := dashCount + 1;
          } else {
            dashCount, beginning := 0, false;
          }
        }
      }
    }
  }

  /** convertNewlines, in place. */
  method ConvertNewlines(s: array<Byte>) returns (n: nat)
    modifies s
    ensures n <= s.Length && s[..n] == Newlines(old(s[..]))
  {
    hide Newlines;
    ghost var was := s[..];
    NewlinesNothing();
    assert s[..0] == [] && was[0..] == was;
    for i := 0 to s.Length
      invariant s[i..] == was[i..] && Newlines(was) == s[..i] + Newlines(was[i..])
    {
      NewlinesAt(was, i);
      if s[i] != CR {
        assert s[..i + 1] == s[..i] + [was[i]];
        continue;
      }
      var src := i + 1;
      if src >= s.Length || s[src] != LF {
        ghost var done := s[..i];
        s[i] := LF;
        assert s[..i + 1] == done + [LF] && s[i + 1..] == was[i + 1..];
        continue;
      }
      n := CompactNewlines(s, i, was);
      return;
    }
    n := s.Length;
  }

  /** The inner loop: the rest is moved down. */
  method CompactNewlines(s: array<Byte>, i: nat, ghost was: HtmlEscape.Text) returns (n: nat)
    requires i + 1 < s.Length == |was| && s[i..] == was[i..] && s[i] == CR && s[i + 1] == LF
    requires Newlines(was) == s[..i] + Newlines(was[i..])
    modifies s
    ensures n <= s.Length && s[..n] == Newlines(was)
  {
    hide Newlines;
    NewlinesNothing();
    NewlinesAt(was, i);
    NewlinesAt(was, i + 1);
    var src, dst := i + 1, i;
    assert s[src..] == was[src..];
    while src < s.Length
      invariant i <= dst < src <= s.Length && s[src..] == was[src..]
      invariant Newlines(was) == s[..dst] + Newlines(was[src..])
    {
      NewlinesAt(was, src);
      ghost var done := s[..dst];
      assert s[src] == was[src] && (src + 1 < s.Length ==> s[src + 1] == was[src + 1]);
      if s[src] == CR {
        if src + 1 < s.Length && s[src + 1] == LF {
          src := src + 1;
        }
        s[dst] := LF;
      } else {
        s[dst] := s[src];
      }
      src := src + 1;
      dst := dst + 1;
      assert s[..dst] == done + [s[dst - 1]] && s[src..] == was[src..];
    }
    n := dst;
  }

  /** A printed comment goes through the tokenizer: it is one comment token up to
      the end of the input, whose text is the comment with its line endings and NUL
      bytes replaced, and so the comment itself exactly if it has no carriage
      return and no NUL byte. */
  method ReadPrinted(t: Entities, s: Text) returns (z: Tokenizer, text: Text)
    requires Fits(t)
    ensures z.input == Printed(s) && z.rawStart == 0 && z.rawEnd == |z.input| && !z.err
    ensures text == ReplaceNul(Newlines(s)) && (text == s <==> CR !in s && NUL !in s)
  {
    hide Reference, EscapedComment, CommentText, Newlines, ReplaceNul, Fits;
    z := new Tokenizer(Printed(s));
    assert z.input[0..4] == OPEN;
    PrintedCommentReadsBack(t, s);
    ReadsBackUnchanged(t, s);
    z.NextComment();
    text := z.Text(t);
  }

  lemma NewlinesNothing()
    ensures Newlines([]) == []
  {
  }

  lemma NewlinesAt(s: HtmlEscape.Text, i: nat)
    requires i < |s|
    ensures s[i] != CR ==> Newlines(s[i..]) == [s[i]] + Newlines(s[i + 1..])
    ensures s[i] == CR && (i + 1 == |s| || s[i + 1] != LF) ==> Newlines(s[i..]) == [LF] + Newlines(s[i + 1..])
    ensures s[i] == CR && i + 1 < |s| && s[i + 1] == LF ==> Newlines(s[i..]) == [LF] + Newlines(s[i + 2..])
    ensures i + 1 < |s| && s[i] == CR && s[i + 1] == LF ==> Newlines(s[i..]) == Newlines(s[i + 1..])
  {
    var u := s[i..];
    assert u[1..] == s[i + 1..] && (i + 1 < |s| ==> u[2..] == s[i + 2..] && s[i + 1..][1..] == s[i + 2..]);
  }

  lemma AtEndOfInput(input: Text, i: nat, state: State, data: Text)
    requires i == |input|
    ensures Reference(input, i, state, data) == Outcome(data, i, false)
  {
  }

  lemma ReferenceStep(input: Text, i: nat, state: State, data: Text)
    requires i < |input| && Feed(state, input[i]).Switch?
    ensures var a := Feed(state, input[i]);
              Reference(input, i, state, data) == Reference(input, i + 1, a.state, data + a.append)
  {
  }

  lemma BangKeepsData(seen: Text, dash: nat, beginning: bool, state: State, data: Text)
    requires Agrees(seen, dash, beginning, state, data) && dash >= 2
    ensures Feed(state, BANG).Switch? && data + Feed(state, BANG).append == data
  {
  }
}
