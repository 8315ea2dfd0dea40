/** The parts of Python's str that the modelled code uses: white space and strip. */
module PythonText {

  /** str.isspace for one code point. */
  predicate IsSpaceCode(n: int) {
    || 0x09 <= n <= 0x0d || 0x1c <= n <= 0x20 || n == 0x85 || n == 0xa0 || n == 0x1680
    || 0x2000 <= n <= 0x200a || n == 0x2028 || n == 0x2029 || n == 0x202f || n == 0x205f || n == 0x3000
  }

  predicate IsSpace(c: char) {
    IsSpaceCode(c as int)
  }

  predicate Blank(s: string) {
    forall i :: 0 <= i < |s| ==> IsSpace(s[i])
  }

  function LeftStrip(s: string): string {
    if s != "" && IsSpace(s[0]) then LeftStrip(s[1..]) else s
  }

  function RightStrip(s: string): string {
    if s != "" && IsSpace(s[|s| - 1]) then RightStrip(s[..|s| - 1]) else s
  }

  function Strip(s: string): string {
    RightStrip(LeftStrip(s))
  }

  predicate Trimmed(s: string) {
    Strip(s) == s
  }

  lemma {:induction false} LeftStripEnds(s: string)
    ensures LeftStrip(s) == "" <==> Blank(s)
    ensures LeftStrip(s) != "" ==> !IsSpace(LeftStrip(s)[0])
  {
    if s != "" && IsSpace(s[0]) {
      LeftStripEnds(s[1..]);
      if Blank(s[1..]) {
        forall i | 0 <= i < |s| ensures IsSpace(s[i]) {
          assert i > 0 ==> s[i] == s[1..][i - 1];
        }
      }
    }
  }

  lemma {:induction false} RightStripEnds(s: string)
    ensures RightStrip(s) == "" <==> Blank(s)
    ensures RightStrip(s) <= s
    ensures RightStrip(s) != "" ==> !IsSpace(RightStrip(s)[|RightStrip(s)| - 1])
  {
    if s != "" && IsSpace(s[|s| - 1]) {
      RightStripEnds(s[..|s| - 1]);
      if Blank(s[..|s| - 1]) {
        forall i | 0 <= i < |s| ensures IsSpace(s[i]) {
          assert i < |s| - 1 ==> s[i] == s[..|s| - 1][i];
        }
      }
    }
  }

  /** Stripping leaves nothing exactly of a blank text, and stripping twice is stripping. */
  lemma StripStrips(s: string)
    ensures Strip(s) == "" <==> Blank(s)
    ensures Trimmed(Strip(s))
  {
    LeftStripEnds(s);
    RightStripEnds(LeftStrip(s));
    if LeftStrip(s) != "" {
      assert !IsSpace(LeftStrip(s)[0]) && !Blank(LeftStrip(s));
      assert Strip(s)[0] == LeftStrip(s)[0];
    }
  }

  lemma {:induction false} LeftStripCuts(s: string) returns (before: string)
    ensures s == before + LeftStrip(s) && Blank(before)
  {
    if s != "" && IsSpace(s[0]) {
      var rest := LeftStripCuts(s[1..]);
      before := [s[0]] + rest;
    } else {
      before := "";
    }
  }

  lemma {:induction false} RightStripCuts(s: string) returns (after: string)
    ensures s == RightStrip(s) + after && Blank(after)
  {
    if s != "" && IsSpace(s[|s| - 1]) {
      var rest := RightStripCuts(s[..|s| - 1]);
      after := rest + [s[|s| - 1]];
    } else {
      after := "";
    }
  }

  /** Stripping takes white space from both ends and nothing else. */
  lemma StripCuts(s: string) returns (before: string, after: string)
    ensures s == before + Strip(s) + after && Blank(before) && Blank(after)
    ensures Strip(s) != "" ==> !IsSpace(Strip(s)[0]) && !IsSpace(Strip(s)[|Strip(s)| - 1])
  {
    before := LeftStripCuts(s);
    after := RightStripCuts(LeftStrip(s));
    assert s == before + (Strip(s) + after) == before + Strip(s) + after;
    LeftStripEnds(s);
    RightStripEnds(LeftStrip(s));
    if Strip(s) != "" {
      assert Strip(s)[0] == LeftStrip(s)[0];
    }
  }

  // ----- The comparison form of a state value -----

  /** Each run of white space becomes one space. */
  function Collapsed(s: string): string {
    if s == "" then ""
    else if !IsSpace(s[0]) then [s[0]] + Collapsed(s[1..])
    else if |s| > 1 && IsSpace(s[1]) then Collapsed(s[1..])
    else " " + Collapsed(s[1..])
  }

  /** _state_value in app/continuity.py. */
  function StateValue(s: string): string {
    Strip(Collapsed(s))
  }

  lemma {:induction false} CollapsedBlank(s: string)
    ensures Blank(Collapsed(s)) <==> Blank(s)
  {
    if s != "" {
      CollapsedBlank(s[1..]);
      var c, rest := Collapsed(s), Collapsed(s[1..]);
      assert Blank(s) <==> (IsSpace(s[0]) && Blank(s[1..])) by {
        if IsSpace(s[0]) && Blank(s[1..]) {
          forall i | 0 <= i < |s| ensures IsSpace(s[i]) {
            assert i > 0 ==> s[i] == s[1..][i - 1];
          }
        }
      }
      if !IsSpace(s[0]) {
        assert c[0] == s[0];
      } else if !(|s| > 1 && IsSpace(s[1])) {
        assert c == " " + rest && IsSpace(' ');
        if Blank(c) {
          forall i | 0 <= i < |rest| ensures IsSpace(rest[i]) {
            assert rest[i] == c[i + 1];
          }
        }
      }
    }
  }

  lemma StateValueBlank(s: string)
    ensures StateValue(s) == "" <==> Blank(s)
  {
    CollapsedBlank(s);
    StripStrips(Collapsed(s));
  }

  // ----- The words of a text -----

  /** str.split(): the stretches without white space. */
  function Words(s: string): (words: seq<string>)
    ensures s != "" && !IsSpace(s[0]) ==> words != []
  {
    if s == "" then []
    else if IsSpace(s[0]) then Words(s[1..])
    else if |s| == 1 || IsSpace(s[1]) then [[s[0]]] + Words(s[1..])
    else var words := Words(s[1..]); [[s[0]] + words[0]] + words[1..]
  }

  function JoinedWords(words: seq<string>): string {
    if words == [] then ""
    else if |words| == 1 then words[0]
    else words[0] + " " + JoinedWords(words[1..])
  }

  lemma {:induction false} CollapsedWords(s: string)
    ensures Words(Collapsed(s)) == Words(s)
    ensures s == "" <==> Collapsed(s) == ""
    ensures s != "" ==> (IsSpace(s[0]) <==> IsSpace(Collapsed(s)[0]))
  {
    if s != "" {
      CollapsedWords(s[1..]);
      var c, rest := Collapsed(s), Collapsed(s[1..]);
      if !IsSpace(s[0]) {
        assert c[1..] == rest && c[0] == s[0];
      } else if !(|s| > 1 && IsSpace(s[1])) {
        assert c[1..] == rest && c[0] == ' ';
      }
    }
  }

  lemma {:induction false} LeftStripWords(s: string)
    ensures Words(LeftStrip(s)) == Words(s)
  {
    if s != "" && IsSpace(s[0]) {
      LeftStripWords(s[1..]);
    }
  }

  lemma {:induction false} SpaceBehind(s: string, c: char)
    requires IsSpace(c)
    ensures Words(s + [c]) == Words(s)
  {
    if s != "" {
      SpaceBehind(s[1..], c);
      assert (s + [c])[1..] == s[1..] + [c] && (s + [c])[0] == s[0];
    } else {
      assert ([c])[1..] == "" && s + [c] == [c];
    }
  }

  lemma {:induction false} RightStripWords(s: string)
    ensures Words(RightStrip(s)) == Words(s)
  {
    if s != "" && IsSpace(s[|s| - 1]) {
      RightStripWords(s[..|s| - 1]);
      SpaceBehind(s[..|s| - 1], s[|s| - 1]);
      assert s == s[..|s| - 1] + [s[|s| - 1]];
    }
  }

  /** White space is single spaces, each with something else behind it. */
  predicate Tidy(s: string) {
    forall i :: 0 <= i < |s| && IsSpace(s[i]) ==> s[i] == ' ' && i + 1 < |s| && !IsSpace(s[i + 1])
  }

  lemma {:induction false} TidyIsJoined(s: string)
    requires Tidy(s) && (s != "" ==> !IsSpace(s[0]))
    ensures JoinedWords(Words(s)) == s
    decreases |s|
  {
    if |s| > 1 && IsSpace(s[1]) {
      var rest := s[2..];
      assert Tidy(rest) by {
        forall i | 0 <= i < |rest| && IsSpace(rest[i])
          ensures rest[i] == ' ' && i + 1 < |rest| && !IsSpace(rest[i + 1])
        {
          assert rest[i] == s[i + 2];
        }
      }
      TidyIsJoined(rest);
      assert s[1..][1..] == rest && Words(s[1..]) == Words(rest) != [];
      assert Words(s)[1..] == Words(rest);
      assert s == [s[0]] + " " + rest;
    } else if |s| > 1 {
      var rest := s[1..];
      assert Tidy(rest) by {
        forall i | 0 <= i < |rest| && IsSpace(rest[i])
          ensures rest[i] == ' ' && i + 1 < |rest| && !IsSpace(rest[i + 1])
        {
          assert rest[i] == s[i + 1];
        }
      }
      TidyIsJoined(rest);
      assert Words(s)[1..] == Words(rest)[1..];
      assert s == [s[0]] + rest;
    }
  }

  /** The same but for one space at the end. */
  predicate Even(s: string) {
    forall i :: 0 <= i < |s| && IsSpace(s[i]) ==> s[i] == ' ' && (i + 1 < |s| ==> !IsSpace(s[i + 1]))
  }

  lemma {:induction false} CollapsedEven(s: string)
    ensures Even(Collapsed(s))
  {
    if s != "" {
      CollapsedEven(s[1..]);
      CollapsedWords(s[1..]);
      var c, rest := Collapsed(s), Collapsed(s[1..]);
      if !IsSpace(s[0]) || !(|s| > 1 && IsSpace(s[1])) {
        assert c[1..] == rest;
        forall i | 0 <= i < |c| && IsSpace(c[i]) ensures c[i] == ' ' && (i + 1 < |c| ==> !IsSpace(c[i + 1])) {
          assert i > 0 ==> c[i] == rest[i - 1];
          assert i + 1 < |c| ==> c[i + 1] == rest[i];
        }
      }
    }
  }

  lemma StateValueIsJoined(s: string)
    ensures StateValue(s) == JoinedWords(Words(s))
  {
    var c, v := Collapsed(s), StateValue(s);
    CollapsedEven(s);
    var before, after := StripCuts(c);
    assert Tidy(v) by {
      forall i | 0 <= i < |v| && IsSpace(v[i]) ensures v[i] == ' ' && i + 1 < |v| && !IsSpace(v[i + 1]) {
        assert c[|before| + i] == v[i];
        assert i + 1 < |v| ==> c[|before| + i + 1] == v[i + 1];
      }
    }
    TidyIsJoined(v);
    CollapsedWords(s);
    LeftStripWords(c);
    RightStripWords(LeftStrip(c));
  }

  /** Two values have the same comparison form exactly when they have the same words. */
  lemma ComparedByWords(a: string, b: string)
    ensures StateValue(a) == StateValue(b) <==> Words(a) == Words(b)
  {
    StateValueIsJoined(a);
    StateValueIsJoined(b);
    CollapsedWords(a);
    CollapsedWords(b);
    LeftStripWords(Collapsed(a));
    LeftStripWords(Collapsed(b));
    RightStripWords(LeftStrip(Collapsed(a)));
    RightStripWords(LeftStrip(Collapsed(b)));
  }
}
