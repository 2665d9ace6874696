/** Comments: what the tokenizer reads (xnet/html/token.go:600-680, 700-713,
    1141-1199), against the comment states of the WHATWG HTML standard (sections
    13.2.5.43 to 13.2.5.52), and against what Token.String prints. */
module HtmlComment {
  import opened Frames
  import opened HtmlEscape

  const NUL: Byte := 0
  const LF: Byte := 10

  // ---- the standard ----

  datatype State =
    | Start | StartDash | Comment
    | LessThan | LessThanBang | LessThanBangDash | LessThanBangDashDash
    | EndDash | End | EndBang

  /** What a state does with a byte: append some data and switch, hand the byte
      to another state after appending some data, or emit the comment. */
  datatype Action = Switch(append: Text, state: State) | Reconsume(append: Text, state: State) | Emit

  function Act(state: State, c: Byte): (a: Action) {
    match state
    case Start => if c == DASH then Switch([], StartDash) else if c == GT then Emit else Reconsume([], Comment)
    case StartDash => if c == DASH then Switch([], End) else if c == GT then Emit else Reconsume([DASH], Comment)
    case Comment => if c == LT then Switch([c], LessThan) else if c == DASH then Switch([], EndDash)
      else Switch([c], Comment)
    case LessThan =>
      if c == BANG then Switch([c], LessThanBang) else if c == LT then Switch([c], LessThan) else Reconsume([], Comment)
    case LessThanBang => if c == DASH then Switch([], LessThanBangDash) else Reconsume([], Comment)
    case LessThanBangDash => if c == DASH then Switch([], LessThanBangDashDash) else Reconsume([], EndDash)
    case LessThanBangDashDash => Reconsume([], End)
    case EndDash => if c == DASH then Switch([], End) else Reconsume([DASH], Comment)
    case End =>
      if c == GT then Emit
      else if c == BANG then Switch([], EndBang)
      else if c == DASH then Switch([DASH], End)
      else Reconsume([DASH, DASH], Comment)
    case EndBang =>
      if c == DASH then Switch([DASH, DASH, BANG], EndDash) else if c == GT then Emit
        else Reconsume([DASH, DASH, BANG], Comment)
  }

  /** How many times a byte can be handed on. */
  function Rank(state: State): nat {
    match state
    case Comment => 0
    case LessThanBangDash => 2
    case LessThanBangDashDash => 2
    case _ => 1
  }

  /** A state and everything it hands the byte on to. */
  function Feed(state: State, c: Byte): (a: Action)
    ensures !a.Reconsume?
    decreases Rank(state)
  {
    match Act(state, c)
    case Reconsume(append, next) =>
      (match Feed(next, c)
       case Switch(more, s) => Switch(append + more, s)
       case Emit => Emit)
    case a => a
  }

  /** The data of the comment, the index after it, and whether it was closed
      rather than cut off by the end of the input. */
  datatype Outcome = Outcome(data: Text, next: nat, closed: bool)

  /** The standard's comment states on input[i..], with data collected so far.
      (The standard writes U+FFFD for a NUL byte; Text does that.) */
  function Reference(input: Text, i: nat, state: State, data: Text): (r: Outcome)
    requires i <= |input|
    decreases |input| - i
  {
    if i == |input| then Outcome(data, i, false)
    else
      match Feed(state, input[i])
      case Emit => Outcome(data, i + 1, true)
      case Switch(append, next) => Reference(input, i + 1, next, data + append)
  }

  /** What a state has seen but not yet decided to be data. */
  function Pending(state: State): Text {
    match state
    case StartDash => [DASH]
    case LessThanBangDash => [DASH]
    case EndDash => [DASH]
    case LessThanBangDashDash => [DASH, DASH]
    case End => [DASH, DASH]
    case EndBang => [DASH, DASH, BANG]
    case _ => []
  }

  /** The states in which '>' ends the comment. */
  predicate Closing(state: State) {
    state.Start? || state.StartDash? || state.LessThanBangDashDash? || state.End? || state.EndBang?
  }

  lemma {:induction false} FeedFacts(state: State, c: Byte)
    ensures Feed(state, c).Emit? <==> c == GT && Closing(state)
    ensures Feed(state, c).Switch? ==> Feed(state, c).append + Pending(Feed(state, c).state) == Pending(state) + [c]
    ensures Feed(state, c).Switch? && Closing(Feed(state, c).state) ==> c == DASH || c == BANG
    decreases Rank(state)
  {
    hide Act, Feed, Closing, Pending;
    if Act(state, c).Reconsume? {
      var r := Act(state, c);
      HandedOn(state, c);
      FeedFacts(r.state, c);
      if Feed(r.state, c).Switch? {
        var more, left := Feed(r.state, c).append, Pending(Feed(r.state, c).state);
        assert (r.append + more) + left == r.append + (more + left) == r.append + (Pending(r.state) + [c])
          == (r.append + Pending(r.state)) + [c];
      }
    } else {
      DirectFacts(state, c);
    }
  }

  lemma DirectFacts(state: State, c: Byte)
    requires !Act(state, c).Reconsume?
    ensures Feed(state, c) == Act(state, c) && (Feed(state, c).Emit? <==> c == GT && Closing(state))
    ensures Feed(state, c).Switch? ==> Feed(state, c).append + Pending(Feed(state, c).state) == Pending(state) + [c]
    ensures Feed(state, c).Switch? && Closing(Feed(state, c).state) ==> c == DASH || c == BANG
  {
  }

  lemma HandedOn(state: State, c: Byte)
    requires Act(state, c).Reconsume?
    ensures var r := Act(state, c); var a := Feed(r.state, c);
            && Rank(r.state) < Rank(state) && r.append + Pending(r.state) == Pending(state)
            && (c == GT ==> (Closing(state) <==> Closing(r.state)))
            && Feed(state, c) == if a.Emit? then Emit else Switch(r.append + a.append, a.state)
  {
  }

  // ---- the printed comment ----

  /** Bytes other than '>' are read without ending the comment. */
  lemma {:induction false} ReadWord(input: Text, i: nat, state: State, data: Text, w: Text)
    returns (state': State, data': Text)
    requires i + |w| <= |input| && input[i..i + |w|] == w && (forall k :: 0 <= k < |w| ==> w[k] != GT)
    ensures Reference(input, i, state, data) == Reference(input, i + |w|, state', data')
    ensures data' + Pending(state') == data + Pending(state) + w
    ensures w != [] && w[|w| - 1] != DASH && w[|w| - 1] != BANG ==> !Closing(state')
    decreases |w|
  {
    hide Feed, Pending, Closing;
    if w == [] {
      return state, data;
    }
    assert input[i] == input[i..i + |w|][0] == w[0];
    state', data' := ReadByteOf(input, i, state, data);
    if |w| > 1 {
      var s1, d1 := state', data';
      assert input[i + 1..i + 1 + |w[1..]|] == w[1..];
      state', data' := ReadWord(input, i + 1, s1, d1, w[1..]);
      assert data + Pending(state) + w == (data + Pending(state) + [w[0]]) + w[1..];
    }
  }

  lemma ReadByteOf(input: Text, i: nat, state: State, data: Text) returns (state': State, data': Text)
    requires i < |input| && !(input[i] == GT && Closing(state))
    ensures Reference(input, i, state, data) == Reference(input, i + 1, state', data')
    ensures data' + Pending(state') == data + Pending(state) + [input[i]]
    ensures input[i] != DASH && input[i] != BANG ==> !Closing(state')
    ensures Feed(state, input[i]).Switch? && state' == Feed(state, input[i]).state
  {
    hide Feed, Pending, Closing;
    FeedFacts(state, input[i]);
    var a := Feed(state, input[i]);
    state', data' := a.state, data + a.append;
    assert data' + Pending(state') == data + (a.append + Pending(state'));
  }

  const CLOSE: Text := [DASH, DASH, GT]

  /** Whatever came before, "-->" ends the comment and is not part of it. */
  lemma ReadClose(input: Text, i: nat, state: State, data: Text)
    requires i + 3 == |input| && input[i..] == CLOSE
    ensures Reference(input, i, state, data) == Outcome(data + Pending(state), |input|, true)
  {
    hide Feed, Pending, Closing, Reference;
    assert input[i..][0] == input[i] && input[i..][1] == input[i + 1] && input[i..][2] == input[i + 2];
    TwoDashes(state);
    var s1, d1 := ReadByteOf(input, i, state, data);
    var s2, d2 := ReadByteOf(input, i + 1, s1, d1);
    assert data + Pending(state) + [DASH] + [DASH] == data + Pending(state) + [DASH, DASH];
    Unappend(d2, data + Pending(state), [DASH, DASH]);
    ReadEnd(input, i + 2, s2, d2);
  }

  lemma ReadEnd(input: Text, i: nat, state: State, data: Text)
    requires i < |input| && input[i] == GT && Closing(state)
    ensures Reference(input, i, state, data) == Outcome(data, i + 1, true)
  {
    FeedFacts(state, GT);
    hide Feed;
  }

  lemma TwoDashes(state: State)
    ensures Feed(state, DASH).Switch?
    ensures var b := Feed(Feed(state, DASH).state, DASH);
            b.Switch? && Pending(b.state) == [DASH, DASH] && Closing(b.state)
  {
  }

  lemma Unappend(a: Text, b: Text, c: Text)
    requires a + c == b + c
    ensures a == b
  {
    assert |a| == |b|;
    assert a == (a + c)[..|a|] == (b + c)[..|b|] == b;
  }

  /** The printed data of a comment is read as it is, up to the "-->". */
  lemma {:induction false} ReadEscaped(s: Text, j: nat, input: Text, i: nat, state: State, data: Text)
    requires j <= |s| && i <= |input| && input[i..] == EscapedComment(s, j) + CLOSE
    requires j > 0 && s[j - 1] != DASH && s[j - 1] != BANG ==> !Closing(state)
    ensures Reference(input, i, state, data) == Outcome(data + Pending(state) + EscapedComment(s, j), |input|, true)
    decreases |s| - j
  {
    hide Pending, Closing, Reference, EscapedComment;
    if j == |s| {
      CommentEnd(s);
      ReadClose(input, i, state, data);
      assert data + Pending(state) + [] == data + Pending(state);
    } else {
      CommentStep(s, j);
      var w, rest := CommentByte(s, j), EscapedComment(s, j + 1);
      assert input[i..] == w + (rest + CLOSE);
      var k := i + |w|;
      assert input[i..][..|w|] == w && input[i..][|w|..] == rest + CLOSE;
      assert input[i..k] == w && input[k..] == rest + CLOSE;
      var state', data' := ReadOne(s, j, input, i, state, data);
      ReadEscaped(s, j + 1, input, k, state', data');
      assert data + Pending(state) + (w + rest) == (data + Pending(state) + w) + rest;
    }
  }

  lemma ReadOne(s: Text, j: nat, input: Text, i: nat, state: State, data: Text) returns (state': State, data': Text)
    requires j < |s| && i + |CommentByte(s, j)| <= |input| && input[i..i + |CommentByte(s, j)|] == CommentByte(s, j)
    requires j > 0 && s[j - 1] != DASH && s[j - 1] != BANG ==> !Closing(state)
    ensures Reference(input, i, state, data) == Reference(input, i + |CommentByte(s, j)|, state', data')
    ensures data' + Pending(state') == data + Pending(state) + CommentByte(s, j)
    ensures s[j] != DASH && s[j] != BANG ==> !Closing(state')
  {
    hide Pending, Closing, Reference;
    var w := CommentByte(s, j);
    if s[j] == GT && !EndsComment(s, j) {
      assert input[i] == input[i..i + 1][0];
      state', data' := ReadByteOf(input, i, state, data);
    } else {
      state', data' := ReadWord(input, i, state, data, w);
    }
  }

  // ---- Text ----

  /** "\r" and "\r\n" become "\n". */
  function Newlines(s: Text): (r: Text) {
    if s == [] then []
    else if s[0] != CR then [s[0]] + Newlines(s[1..])
    else if |s| > 1 && s[1] == LF then [LF] + Newlines(s[2..])
    else [LF] + Newlines(s[1..])
  }

  const REPLACEMENT: Text := [0xEF, 0xBF, 0xBD]

  function ReplaceNul(s: Text): (r: Text) {
    if s == [] then [] else (if s[0] == NUL then REPLACEMENT else [s[0]]) + ReplaceNul(s[1..])
  }

  /** What Text returns for the data of a comment token. */
  function CommentText(t: Entities, data: Text): Text { Unescaped(t, ReplaceNul(Newlines(data)), false) }

  /** escapeComment of s after the byte before it. */
  function Esc(risky: bool, s: Text): (r: Text)
    decreases s
  {
    if s == [] then [] else EscOne(risky, s[0]) + Esc(Risky(s[0]), s[1..])
  }

  function EscOne(risky: bool, c: Byte): Text {
    if c == AMP then [AMP] + AMP_NAME else if c == GT && risky then [AMP] + GT_NAME else [c]
  }

  lemma {:induction false} EscIs(s: Text, j: nat)
    requires j <= |s|
    ensures EscapedComment(s, j) == Esc(j == 0 || s[j - 1] == DASH || s[j - 1] == BANG, s[j..])
    decreases |s| - j
  {
    if j < |s| {
      EscIs(s, j + 1);
      assert s[j..][1..] == s[j + 1..];
    }
  }

  lemma EscOneWord(risky: bool, c: Byte)
    requires c != CR && c != NUL
    ensures EscOne(risky, c) != [] && forall k ::
              0 <= k < |EscOne(risky, c)| ==> EscOne(risky, c)[k] != CR && EscOne(risky, c)[k] != NUL
    ensures EscOne(risky, c)[0] == LF <==> c == LF
  {
  }

  lemma {:induction false} NewlinesPlain(w: Text, s: Text)
    requires forall k :: 0 <= k < |w| ==> w[k] != CR
    ensures Newlines(w + s) == w + Newlines(s)
  {
    if w == [] {
      assert w + s == s;
    } else {
      assert (w + s)[1..] == w[1..] + s;
      NewlinesPlain(w[1..], s);
    }
  }

  lemma {:induction false} ReplaceNulPlain(w: Text, s: Text)
    requires forall k :: 0 <= k < |w| ==> w[k] != NUL
    ensures ReplaceNul(w + s) == w + ReplaceNul(s)
  {
    if w == [] {
      assert w + s == s;
    } else {
      assert (w + s)[1..] == w[1..] + s;
      ReplaceNulPlain(w[1..], s);
    }
  }

  predicate Risky(c: Byte) { c == DASH || c == BANG }

  lemma EscHead(risky: bool, c: Byte, s: Text)
    ensures Esc(risky, [c] + s) == EscOne(risky, c) + Esc(Risky(c), s)
  {
    assert ([c] + s)[1..] == s;
  }

  lemma NewlinesHead(c: Byte, s: Text)
    ensures c != CR ==> Newlines([c] + s) == [c] + Newlines(s)
    ensures c == CR && (s == [] || s[0] != LF) ==> Newlines([c] + s) == [LF] + Newlines(s)
    ensures c == CR && s != [] && s[0] == LF ==> Newlines([c] + s) == Newlines(s)
  {
    assert ([c] + s)[1..] == s && (s != [] ==> ([c] + s)[2..] == s[1..]);
  }

  /** Escaping does not disturb line endings. */
  lemma {:induction false} NewlinesOfEsc(risky: bool, s: Text)
    ensures Newlines(Esc(risky, s)) == Esc(risky, Newlines(s))
    decreases |s|
  {
    if s != [] {
      var c, u := s[0], s[1..];
      assert s == [c] + u;
      NewlinesOfEsc(Risky(c), u);
      FirstByte(Risky(c), u);
      EscHead(risky, c, u);
      NewlinesHead(c, u);
      if c != CR {
        EscOnePlain(risky, c);
        NewlinesPlain(EscOne(risky, c), Esc(Risky(c), u));
        EscHead(risky, c, Newlines(u));
      } else {
        NewlinesHead(c, Esc(false, u));
        EscHead(risky, LF, Newlines(u));
        if u != [] && u[0] == LF { SameRisk(risky, u); }
      }
      hide *;
    }
  }

  lemma EscOnePlain(risky: bool, c: Byte)
    requires c != CR
    ensures forall k :: 0 <= k < |EscOne(risky, c)| ==> EscOne(risky, c)[k] != CR
  {
  }

  /** A line feed hides what was before it. */
  lemma SameRisk(risky: bool, u: Text)
    requires u != [] && u[0] == LF
    ensures Esc(risky, Newlines(u)) == Esc(false, Newlines(u))
  {
    assert Newlines(u)[0] == LF;
  }

  lemma FirstByte(risky: bool, s: Text)
    ensures (Esc(risky, s) != [] && Esc(risky, s)[0] == LF) <==> s != [] && s[0] == LF
  {
    if s != [] && s[0] != CR && s[0] != NUL { EscOneWord(risky, s[0]); }
  }

  lemma {:induction false} ReplaceNulOfEsc(risky: bool, s: Text)
    ensures ReplaceNul(Esc(risky, s)) == Esc(risky, ReplaceNul(s))
    decreases s
  {
    if s != [] {
      var w, rest := EscOne(risky, s[0]), Esc(s[0] == DASH || s[0] == BANG, s[1..]);
      ReplaceNulOfEsc(s[0] == DASH || s[0] == BANG, s[1..]);
      if s[0] == NUL {
        assert ([NUL] + rest)[1..] == rest;
        EscReplacement(risky, ReplaceNul(s[1..]));
      } else {
        if s[0] != CR { EscOneWord(risky, s[0]); }
        ReplaceNulPlain(w, rest);
        assert ReplaceNul(s)[1..] == ReplaceNul(s[1..]);
      }
    }
  }

  lemma EscReplacement(risky: bool, s: Text)
    ensures Esc(risky, REPLACEMENT + s) == REPLACEMENT + Esc(false, s)
  {
    var r := REPLACEMENT + s;
    assert r[1..][1..][1..] == s;
    assert Esc(false, r[1..][1..]) == [0xBD] + Esc(false, s);
    assert Esc(false, r[1..]) == [0xBF] + Esc(false, r[1..][1..]);
    assert Esc(risky, r) == [0xEF] + Esc(false, r[1..]);
  }

  lemma {:induction false} NewlinesClean(s: Text)
    ensures CR !in Newlines(s) && (CR !in s ==> Newlines(s) == s)
    decreases |s|
  {
    if s != [] {
      var c, u := s[0], s[1..];
      assert s == [c] + u;
      NewlinesClean(u);
      NewlinesHead(c, u);
      hide Newlines;
    }
  }

  lemma {:induction false} ReplaceNulClean(s: Text)
    ensures NUL !in ReplaceNul(s) && (NUL !in s ==> ReplaceNul(s) == s) && (CR !in s ==> CR !in ReplaceNul(s))
  {
    if s != [] {
      ReplaceNulClean(s[1..]);
      assert s == [s[0]] + s[1..];
    }
  }

  const OPEN: Text := [LT, BANG, DASH, DASH]

  /** Token.String of a comment. */
  function Printed(s: Text): Text { OPEN + EscapedComment(s, 0) + CLOSE }

  /** Reading back a printed comment: one comment that takes the whole text,
      whose Text is the comment with its line endings and NUL bytes replaced. */
  lemma PrintedCommentReadsBack(t: Entities, s: Text)
    requires Fits(t)
    ensures Reference(Printed(s), 4, Start, []) == Outcome(EscapedComment(s, 0), |Printed(s)|, true)
    ensures CommentText(t, EscapedComment(s, 0)) == ReplaceNul(Newlines(s))
  {
    hide Reference, EscapedComment, Newlines, ReplaceNul, Esc, Unescaped, Fits;
    assert Printed(s)[4..] == EscapedComment(s, 0) + CLOSE;
    ReadEscaped(s, 0, Printed(s), 4, Start, []);
    assert [] + Pending(Start) + EscapedComment(s, 0) == EscapedComment(s, 0);
    EscIs(s, 0);
    assert s[0..] == s;
    NewlinesOfEsc(true, s);
    ReplaceNulOfEsc(true, Newlines(s));
    var u := ReplaceNul(Newlines(s));
    EscIs(u, 0);
    assert u[0..] == u;
    CommentRoundTrip(t, u, 0);
  }

  /** A comment comes back unchanged exactly if it holds no carriage return and
      no NUL byte. */
  lemma ReadsBackUnchanged(t: Entities, s: Text)
    requires Fits(t)
    ensures CommentText(t, EscapedComment(s, 0)) == s <==> CR !in s && NUL !in s
  {
    hide Newlines, ReplaceNul, Fits, EscapedComment, CommentText;
    PrintedCommentReadsBack(t, s);
    NewlinesClean(s);
    ReplaceNulClean(Newlines(s));
  }
}
