/** A single allowed line in a text of any kind, underscores and placeholders included: when
    the detour through its placeholder gives the text back. */
module OneLine {
  import opened OverlapSpans
  import opened PlaceholderTexts
  import opened VerbatimLines
  import opened ExcerptSplice

  /** str.split. */
  function Split(text: string, part: string): (ps: seq<string>)
    requires part != ""
    ensures ps != []
  {
    if text == "" then [""]
    else if part <= text then [""] + Split(text[|part|..], part)
    else
      var rest := Split(text[1..], part);
      [[text[0]] + rest[0]] + rest[1..]
  }

  lemma {:induction false} ReplacedIsJoined(text: string, part: string, put: string)
    requires part != ""
    ensures Replace(text, part, put) == Join(Split(text, part), put)
  {
    if text != "" {
      if part <= text {
        var rest := Split(text[|part|..], part);
        ReplacedIsJoined(text[|part|..], part, put);
        assert Split(text, part)[1..] == rest && "" + put == put;
      } else {
        var rest := Split(text[1..], part);
        ReplacedIsJoined(text[1..], part, put);
        assert Split(text, part)[1..] == rest[1..];
        if |rest| > 1 {
          Reassociate([text[0]], rest[0], put);
          Reassociate([text[0]], rest[0] + put, Join(rest[1..], put));
        }
      }
    }
  }

  lemma {:induction false} ReplacedByItself(text: string, part: string)
    requires part != ""
    ensures Replace(text, part, part) == text
  {
    if text != "" {
      if part <= text {
        ReplacedByItself(text[|part|..], part);
      } else {
        ReplacedByItself(text[1..], part);
      }
    }
  }

  lemma {:induction false} FirstPieceInFront(text: string, part: string)
    requires part != ""
    ensures Split(text, part)[0] <= text
  {
    if text != "" && !(part <= text) {
      FirstPieceInFront(text[1..], part);
    }
  }

  lemma {:induction false} PiecesAreInside(text: string, part: string, s: string)
    requires part != "" && s != "" && !Contains(text, s)
    ensures forall k :: 0 <= k < |Split(text, part)| ==> !Contains(Split(text, part)[k], s)
  {
    if text != "" {
      if part <= text {
        assert text[..|part|] + text[|part|..] == text;
        if Contains(text[|part|..], s) {
          ContainsBehind(text[..|part|], text[|part|..], s);
        }
        PiecesAreInside(text[|part|..], part, s);
      } else {
        var rest := Split(text[1..], part);
        PiecesAreInside(text[1..], part, s);
        FirstPieceInFront(text, part);
        assert !Contains(rest[0], s);
        assert ([text[0]] + rest[0])[1..] == rest[0];
      }
    }
  }

  lemma {:induction false} OnePieceExactly(text: string, part: string)
    requires part != ""
    ensures |Split(text, part)| == 1 <==> !Contains(text, part)
  {
    if text != "" && !(part <= text) {
      OnePieceExactly(text[1..], part);
    }
  }

  // ----- The shape of a placeholder -----

  /** What the proofs need of a placeholder, however many underscores it got: its front and its
      end have two underscores in common and no more. */
  ghost predicate Shaped(token: string) {
    && |token| >= 3 && token[0] == '_' && token[1] == '_'
    && token[|token| - 2] == '_' && token[|token| - 1] == '_'
    && forall b :: 3 <= b < |token| ==> token[..b] != token[|token| - b..]
  }

  ghost predicate Lengthened(token: string) {
    Token(0) <= token && forall k :: |Token(0)| <= k < |token| ==> token[k] == '_'
  }

  lemma LengthenedIsShaped(token: string)
    requires Lengthened(token)
    ensures Shaped(token)
  {
    var t, n := Token(0), |token|;
    assert t[0] == Letter(0) && t[1] == Letter(1) && t[2] == Letter(2);
    assert forall k :: 0 <= k < |t| ==> token[k] == t[k];
    forall b | 3 <= b < n ensures token[..b] != token[n - b..] {
      var r := n - b;
      assert token[..b][0] == '_' && token[..b][1] == '_' && token[..b][2] == 'M';
      assert token[r..][0] == token[r] && token[r..][1] == token[r + 1] && token[r..][2] == token[r + 2];
      if r < |t| - 2 {
        ScoresApart(0, r);
      } else {
        assert token[r + 2] == '_';
      }
    }
  }

  lemma {:induction false} FreshIsLengthened(body: string, token: string)
    requires Lengthened(token)
    ensures Lengthened(FreshToken(body, token))
    decreases |body| + 1 - |token|
  {
    if Contains(body, token) {
      FreshIsLengthened(body, token + "_");
    }
  }

  // ----- There and back, piece by piece -----

  /** The piece ends like the placeholder short of its last one or two underscores. */
  predicate TakesHead(piece: string, token: string)
    requires |token| >= 2
  {
    EndOf(token[..|token| - 1], piece) || EndOf(token[..|token| - 2], piece)
  }

  /** A placeholder can only start in a piece that does. */
  lemma OverlapTakesHead(piece: string, token: string, rest: string, r: nat)
    requires Shaped(token) && r < |piece| < r + |token| && token <= piece[r..] + (token + rest)
    ensures TakesHead(piece, token)
  {
    var k, whole := |piece| - r, piece[r..] + (token + rest);
    var b := |token| - k;
    assert token[k..] == whole[k..|token|] == token[..b];
    assert forall x :: 0 <= x < k ==> token[..k][x] == whole[x] == piece[|piece| - k + x];
    assert EndOf(token[..|token| - b], piece);
  }

  lemma PieceStartsNone(piece: string, token: string, rest: string)
    requires Shaped(token) && !Contains(piece, token) && !TakesHead(piece, token)
    ensures NoneStarts(piece, token + rest, token)
  {
    forall r | 0 <= r < |piece| ensures !(token <= piece[r..] + (token + rest)) {
      if token <= piece[r..] + (token + rest) {
        if r + |token| <= |piece| {
          assert token <= piece[r..];
          ContainsAt(piece, token, r);
        } else {
          OverlapTakesHead(piece, token, rest, r);
        }
      }
    }
  }

  /** And a piece that does starts one. */
  lemma HeadStartsOne(piece: string, token: string, rest: string, b: nat)
    requires Shaped(token) && 1 <= b <= 2 && EndOf(token[..|token| - b], piece)
    ensures token <= piece[|piece| - (|token| - b)..] + (token + rest)
  {
    var k := |token| - b;
    var whole := piece[|piece| - k..] + (token + rest);
    forall x | 0 <= x < |token| ensures whole[x] == token[x] {
      if x < k {
        assert token[..k][x] == token[x];
      } else {
        assert whole[x] == token[x - k] == '_';
      }
    }
    assert whole[..|token|] == token;
  }

  /** A placeholder that starts in the piece is turned back into the line, and the piece is lost. */
  lemma {:induction false} PieceIsLost(x: string, y: string, token: string, line: string, s: nat)
    requires token != "" && token[0] == '_' && line != "" && line[0] != '_'
    requires s < |x| && token <= x[s..] + y
    ensures !(x <= Replace(x + y, token, line))
  {
    var u := x + y;
    assert x[0..] == x;
    if token <= u {
      assert u[0] == token[0];
    } else {
      assert u[1..] == x[1..] + y;
      assert x[1..][s - 1..] == x[s..];
      PieceIsLost(x[1..], y, token, line, s - 1);
      SameFront(x, Replace(u, token, line));
    }
  }

  ghost predicate NoHeads(ps: seq<string>, token: string)
    requires |token| >= 2
  {
    forall k :: 0 <= k < |ps| - 1 ==> !TakesHead(ps[k], token)
  }

  lemma FrontsCancel(x: string, a: string, b: string)
    ensures x + a == x + b <==> a == b
  {
    assert (x + a)[|x|..] == a && (x + b)[|x|..] == b;
  }

  lemma LostWithHead(x: string, token: string, line: string, rest: string, after: string)
    requires Shaped(token) && line != "" && line[0] != '_' && TakesHead(x, token)
    ensures Replace(x + token + rest, token, line) != x + line + after
  {
    var b := if EndOf(token[..|token| - 1], x) then 1 else 2;
    assert x + token + rest == x + (token + rest);
    HeadStartsOne(x, token, rest, b);
    PieceIsLost(x, token + rest, token, line, |x| - (|token| - b));
    assert x <= x + line + after;
  }

  lemma KeptWithoutHead(x: string, token: string, line: string, rest: string, after: string)
    requires Shaped(token) && !Contains(x, token) && !TakesHead(x, token)
    ensures Replace(x + token + rest, token, line) == x + line + after <==> Replace(rest, token, line) == after
  {
    assert x + token + rest == x + (token + rest);
    PieceStartsNone(x, token, rest);
    SkipStretch(x, token + rest, token, line);
    assert (token + rest)[|token|..] == rest;
    Reassociate(x, line, Replace(rest, token, line));
    FrontsCancel(x + line, Replace(rest, token, line), after);
  }

  lemma NoHeadsFromFirst(ps: seq<string>, token: string)
    requires |ps| > 1 && |token| >= 2
    ensures NoHeads(ps, token) <==> !TakesHead(ps[0], token) && NoHeads(ps[1..], token)
  {
    assert forall k :: 0 <= k < |ps| - 2 ==> ps[1..][k] == ps[k + 1];
    if !TakesHead(ps[0], token) && NoHeads(ps[1..], token) {
      forall k | 0 <= k < |ps| - 1 ensures !TakesHead(ps[k], token) {
        if k > 0 {
          assert !TakesHead(ps[1..][k - 1], token);
        }
      }
    }
  }

  lemma {:induction false} JoinedBackExact(ps: seq<string>, token: string, line: string)
    requires ps != [] && Shaped(token) && line != "" && line[0] != '_'
    requires forall k :: 0 <= k < |ps| ==> !Contains(ps[k], token)
    ensures Replace(Join(ps, token), token, line) == Join(ps, line) <==> NoHeads(ps, token)
    decreases |ps|
  {
    if |ps| == 1 {
      NotInside(ps[0], token, line);
    } else {
      var rest, after := Join(ps[1..], token), Join(ps[1..], line);
      NoHeadsFromFirst(ps, token);
      JoinedBackExact(ps[1..], token, line);
      if TakesHead(ps[0], token) {
        LostWithHead(ps[0], token, line, rest, after);
      } else {
        KeptWithoutHead(ps[0], token, line, rest, after);
      }
    }
  }

  lemma OneLinePlaced(text: string, line: string)
    requires line != "" && Contains(text, line)
    ensures var token := FreshToken(text, Token(0));
            ThereAndBack(text, [line]) == Replace(Replace(text, line, token), token, line)
  {
    var token := FreshToken(text, Token(0));
    assert Place(text, [line], 0) == Placed(text, []);
    assert Place(text, [line], 1) == Placed(Replace(text, line, token), [] + [Swap(token, line)]);
    PutBackLast(Replace(text, line, token), [], Swap(token, line));
  }

  /** Whatever the text: it comes back exactly when nowhere in front of the line there stands
      the placeholder - with the underscores it got to be fresh - short of its last one or two. */
  lemma OneLineExact(text: string, line: string)
    requires line != "" && line[0] != '_'
    ensures ThereAndBack(text, [line]) == text <==> NoHeads(Split(text, line), FreshToken(text, Token(0)))
  {
    var token := FreshToken(text, Token(0));
    FreshIsLengthened(text, Token(0));
    LengthenedIsShaped(token);
    OnePieceExactly(text, line);
    if Contains(text, line) {
      OneLinePlaced(text, line);
      ReplacedIsJoined(text, line, token);
      ReplacedIsJoined(text, line, line);
      ReplacedByItself(text, line);
      PiecesAreInside(text, line, token);
      JoinedBackExact(Split(text, line), token, line);
    } else {
      assert Place(text, [line], 0) == Placed(text, []);
      assert Place(text, [line], 1) == Placed(text, []);
    }
  }

  /** The same of what is sent, for a prompt that repeats nothing of the source outside the line. */
  lemma CleanOneLineExact(text: string, excerpt: string, line: string)
    requires line != "" && line[0] != '_' && excerpt != "" && CleanPrompt(text, excerpt, [line])
    ensures Sent(text, excerpt, [line]) == text <==> NoHeads(Split(text, line), FreshToken(text, Token(0)))
  {
    CleanGoesThereAndBack(text, excerpt, [line]);
    OneLineExact(text, line);
  }

  // ----- A text that takes its line's placeholder -----

  lemma HeadIsNoToken(line: string)
    requires line != "" && Bare(line)
    ensures !Contains(Token(0)[..26] + line, Token(0))
  {
    var t, text := Token(0), Token(0)[..26] + line;
    assert |Decimal(0)| == 1 && |t| == 28;
    assert t[0] == Letter(0) && t[1] == Letter(1);
    forall i: nat ensures !OccursAt(t, text, i) {
      if i + 28 <= |text| {
        var piece := text[i..i + 28];
        assert piece[0] == text[i] && piece[1] == text[i + 1] && piece[26] == text[i + 26];
        if i == 0 {
          assert text[26] == line[0];
        } else if i + 1 < 26 {
          ScoresApart(0, i);
        } else {
          assert text[i + 1] == line[i + 1 - 26];
        }
      }
    }
    ContainsOccurs(text, t);
  }

  lemma HeadAndToken(line: string)
    ensures Replace(Token(0)[..26] + Token(0), Token(0), line) == line + Token(0)[2..]
  {
    var t, body := Token(0), Token(0)[..26] + Token(0);
    assert t[0] == Letter(0) && t[1] == Letter(1) && |Decimal(0)| == 1;
    assert body[..28] == t by {
      assert forall k :: 0 <= k < 28 ==> body[k] == t[k];
    }
    assert body[28..] == t[2..];
    NotInside(t[2..], t, line);
  }

  /** The placeholder short of its last two underscores in front of the line: text and
      placeholder read like a placeholder that starts too early. */
  lemma TextTakesPlaceholder(line: string)
    requires line != "" && Bare(line) && NoneStarts(Token(0)[..26], line, line)
    ensures var text := Token(0)[..26] + line;
            Sent(text, "x", [line]) == ThereAndBack(text, [line]) == line + Token(0)[2..] != text
  {
    var t, head, text := Token(0), Token(0)[..26], Token(0)[..26] + line;
    HeadIsNoToken(line);
    ShortSourceIsClean(text, "x", [line]);
    CleanGoesThereAndBack(text, "x", [line]);
    SkipStretch(head, line, line, t);
    assert Replace(line, line, t) == t by {
      assert line[|line|..] == "" && t + "" == t;
    }
    OneLinePlaced(text, line);
    HeadAndToken(line);
    assert (line + t[2..])[0] == line[0] && text[0] == t[0] == Letter(0);
  }
}
