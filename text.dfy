/** The string functions of Go's standard library that the command parsers
    use: `unicode.IsSpace`, `strings.TrimSpace`, `strings.Fields`,
    `strings.Join(ws, " ")` and `strings.ToLower` (on ASCII letters). */
module Text {

  /** `unicode.IsSpace`: the Latin-1 white space characters and the other
      characters with the Unicode White_Space property. */
  predicate IsSpace(c: char)
  {
    var n := c as int;
    (9 <= n <= 13) || n == 0x20 || n == 0x85 || n == 0xA0 || n == 0x1680
    || (0x2000 <= n <= 0x200A) || n == 0x2028 || n == 0x2029
    || n == 0x202F || n == 0x205F || n == 0x3000
  }

  /** Every character of `s` is white space (the empty string included). */
  predicate AllSpace(s: string)
  {
    s == [] || (IsSpace(s[0]) && AllSpace(s[1..]))
  }

  /** No character of `s` is white space. */
  predicate NoSpace(s: string)
  {
    s == [] || (!IsSpace(s[0]) && NoSpace(s[1..]))
  }

  /** A word as `strings.Fields` returns it: non-empty, without white space. */
  predicate IsWord(w: string)
  {
    w != [] && NoSpace(w)
  }

  /** All the elements of `ws` are words. */
  predicate Words(ws: seq<string>)
  {
    forall i :: 0 <= i < |ws| ==> IsWord(ws[i])
  }

  /** `s` with its leading white space removed. */
  function TrimLeft(s: string): (r: string)
    ensures |r| <= |s|
    ensures r == [] <==> AllSpace(s)
    ensures r == [] || !IsSpace(r[0])
  {
    if s != [] && IsSpace(s[0]) then TrimLeft(s[1..]) else s
  }

  /** `s` with its trailing white space removed. */
  function TrimRight(s: string): (r: string)
    ensures |r| <= |s|
    ensures s != [] && !IsSpace(s[0]) ==> r != [] && r[0] == s[0]
  {
    if s != [] && IsSpace(s[|s| - 1]) then TrimRight(s[..|s| - 1]) else s
  }

  /** `strings.TrimSpace`. */
  function TrimSpace(s: string): string
  {
    TrimRight(TrimLeft(s))
  }

  /** The longest prefix of `s` that holds no white space. */
  function TakeWord(s: string): (w: string)
    ensures |w| <= |s| && w == s[..|w|]
    ensures NoSpace(w)
    ensures |w| == |s| || IsSpace(s[|w|])
  {
    if s == [] || IsSpace(s[0]) then [] else [s[0]] + TakeWord(s[1..])
  }

  /** `strings.Fields`: the maximal runs of non-space characters of `s`. */
  function Fields(s: string): (ws: seq<string>)
    ensures forall i :: 0 <= i < |ws| ==> IsWord(ws[i])
    ensures ws == [] <==> AllSpace(s)
    decreases |s|
  {
    if s == [] then []
    else if IsSpace(s[0]) then Fields(s[1..])
    else
      var w := TakeWord(s);
      [w] + Fields(s[|w|..])
  }

  /** `strings.Join(ws, " ")`. */
  function Join(ws: seq<string>): string
  {
    if ws == [] then ""
    else if |ws| == 1 then ws[0]
    else ws[0] + " " + Join(ws[1..])
  }

  function LowerChar(c: char): char
  {
    if 'A' <= c <= 'Z' then (c as int + 32) as char else c
  }

  /** `strings.ToLower`, on ASCII letters. */
  function ToLower(s: string): (r: string)
    ensures |r| == |s|
    ensures forall i :: 0 <= i < |s| ==> r[i] == LowerChar(s[i])
  {
    if s == [] then [] else [LowerChar(s[0])] + ToLower(s[1..])
  }

  // ---------------------------------------------------------------------
  // Lemmas

  /** Trimming leaves nothing exactly when the input is all white space. */
  lemma TrimSpaceEmpty(s: string)
    ensures TrimSpace(s) == [] <==> AllSpace(s)
  {
  }

  /** Leading white space does not change the fields. */
  lemma {:induction false} FieldsTrimLeft(s: string)
    ensures Fields(TrimLeft(s)) == Fields(s)
  {
    if s != [] && IsSpace(s[0]) {
      FieldsTrimLeft(s[1..]);
    }
  }

  /** A white space character appended after a string does not change its first word. */
  lemma {:induction false} TakeWordAppendSpace(s: string, c: char)
    requires IsSpace(c)
    ensures TakeWord(s + [c]) == TakeWord(s)
    decreases |s|
  {
    if s != [] && !IsSpace(s[0]) {
      assert (s + [c])[1..] == s[1..] + [c];
      TakeWordAppendSpace(s[1..], c);
    }
  }

  /** A trailing white space character does not change the fields. */
  lemma {:induction false} FieldsAppendSpace(s: string, c: char)
    requires IsSpace(c)
    ensures Fields(s + [c]) == Fields(s)
    decreases |s|
  {
    if s == [] {
      assert Fields([c]) == Fields([c][1..]);
    } else if IsSpace(s[0]) {
      assert (s + [c])[1..] == s[1..] + [c];
      FieldsAppendSpace(s[1..], c);
    } else {
      var w := TakeWord(s);
      TakeWordAppendSpace(s, c);
      assert (s + [c])[|w|..] == s[|w|..] + [c];
      FieldsAppendSpace(s[|w|..], c);
    }
  }

  /** Trailing white space does not change the fields. */
  lemma {:induction false} FieldsTrimRight(s: string)
    ensures Fields(TrimRight(s)) == Fields(s)
    decreases |s|
  {
    if s != [] && IsSpace(s[|s| - 1]) {
      var p := s[..|s| - 1];
      assert s == p + [s[|s| - 1]];
      FieldsAppendSpace(p, s[|s| - 1]);
      FieldsTrimRight(p);
    }
  }

  /** `strings.Fields` of the trimmed string equals that of the original. */
  lemma FieldsTrimSpace(s: string)
    ensures Fields(TrimSpace(s)) == Fields(s)
  {
    FieldsTrimRight(TrimLeft(s));
    FieldsTrimLeft(s);
  }

  /** A word followed by nothing or by white space is what TakeWord reads. */
  lemma {:induction false} TakeWordPrefix(w: string, rest: string)
    requires NoSpace(w)
    requires rest == [] || IsSpace(rest[0])
    ensures TakeWord(w + rest) == w
    decreases |w|
  {
    if w == [] {
      assert w + rest == rest;
    } else {
      assert (w + rest)[1..] == w[1..] + rest;
      TakeWordPrefix(w[1..], rest);
    }
  }

  /** Round trip: splitting words joined by single spaces gives the words back. */
  lemma {:induction false} FieldsJoin(ws: seq<string>)
    requires Words(ws)
    ensures Fields(Join(ws)) == ws
    decreases |ws|
  {
    if ws == [] {
    } else if |ws| == 1 {
      var w := ws[0];
      TakeWordPrefix(w, []);
      assert w + [] == w;
      assert w[|w|..] == [];
    } else {
      var w, rest := ws[0], Join(ws[1..]);
      var j := w + (" " + rest);
      assert Join(ws) == j;
      TakeWordPrefix(w, " " + rest);
      assert j[|w|..] == " " + rest;
      assert (" " + rest)[1..] == rest;
      FieldsJoin(ws[1..]);
    }
  }

  // ---------------------------------------------------------------------
  // What Fields computes, exactly: every string is its fields laid out
  // between runs of white space, and only one list of words fits.

  /** `seps[0] + ws[0] + seps[1] + ... + ws[k-1] + seps[k]`. */
  function Layout(ws: seq<string>, seps: seq<string>): string
    requires |seps| == |ws| + 1
    decreases |ws|
  {
    if ws == [] then seps[0] else seps[0] + ws[0] + Layout(ws[1..], seps[1..])
  }

  /** Separators are white space, and the ones between two words are not empty. */
  predicate Separators(seps: seq<string>)
  {
    forall i :: 0 <= i < |seps| ==> AllSpace(seps[i]) && (0 < i < |seps| - 1 ==> seps[i] != [])
  }

  /** The white space before, between and after the fields of `s`. */
  function Gaps(s: string): (seps: seq<string>)
    ensures |seps| == |Fields(s)| + 1
    decreases |s|
  {
    if s == [] then [""]
    else if IsSpace(s[0]) then
      var g := Gaps(s[1..]);
      [[s[0]] + g[0]] + g[1..]
    else
      var w := TakeWord(s);
      [""] + Gaps(s[|w|..])
  }

  /** Leading white space does not change the fields. */
  lemma {:induction false} FieldsSpacePrefix(a: string, b: string)
    requires AllSpace(a)
    ensures Fields(a + b) == Fields(b)
    decreases |a|
  {
    if a == [] {
      assert a + b == b;
    } else {
      assert (a + b)[0] == a[0] && (a + b)[1..] == a[1..] + b;
      FieldsSpacePrefix(a[1..], b);
    }
  }

  /** Words laid out between separators are the fields of the layout. */
  lemma {:induction false} FieldsLayout(ws: seq<string>, seps: seq<string>)
    requires |seps| == |ws| + 1 && Words(ws) && Separators(seps)
    ensures Fields(Layout(ws, seps)) == ws
    decreases |ws|
  {
    if ws == [] {
      assert AllSpace(seps[0]);
    } else {
      var w, rest := ws[0], Layout(ws[1..], seps[1..]);
      assert Layout(ws, seps) == seps[0] + (w + rest);
      assert AllSpace(seps[0]);
      FieldsSpacePrefix(seps[0], w + rest);
      if |ws| > 1 {
        assert seps[1] != [] && AllSpace(seps[1]);
        assert rest == seps[1] + (ws[1] + Layout(ws[2..], seps[2..])) by {
          assert ws[1..][0] == ws[1] && ws[1..][1..] == ws[2..];
          assert seps[1..][0] == seps[1] && seps[1..][1..] == seps[2..];
        }
        assert rest[0] == seps[1][0];
      } else {
        assert rest == seps[1];
      }
      assert IsWord(w);
      TakeWordPrefix(w, rest);
      assert (w + rest)[|w|..] == rest;
      assert Words(ws[1..]) by {
        forall i | 0 <= i < |ws[1..]|
          ensures IsWord(ws[1..][i])
        {
          assert ws[1..][i] == ws[i + 1];
        }
      }
      assert Separators(seps[1..]) by {
        forall i | 0 <= i < |seps[1..]|
          ensures AllSpace(seps[1..][i]) && (0 < i < |seps[1..]| - 1 ==> seps[1..][i] != [])
        {
          assert seps[1..][i] == seps[i + 1];
        }
      }
      FieldsLayout(ws[1..], seps[1..]);
    }
  }

  /** A space in front of the first separator is a space in front of the layout. */
  lemma LayoutConsSpace(ws: seq<string>, seps: seq<string>, c: char)
    requires |seps| == |ws| + 1
    ensures Layout(ws, [[c] + seps[0]] + seps[1..]) == [c] + Layout(ws, seps)
  {
    var seps' := [[c] + seps[0]] + seps[1..];
    assert seps'[0] == [c] + seps[0] && seps'[1..] == seps[1..];
  }

  /** FieldsGaps for a string that starts with white space, from FieldsGaps of its tail. */
  lemma FieldsGapsSpace(s: string)
    requires s != [] && IsSpace(s[0])
    requires Separators(Gaps(s[1..])) && Layout(Fields(s[1..]), Gaps(s[1..])) == s[1..]
    ensures Separators(Gaps(s)) && Layout(Fields(s), Gaps(s)) == s
  {
    var g := Gaps(s[1..]);
    var seps := [[s[0]] + g[0]] + g[1..];
    assert Gaps(s) == seps;
    assert Fields(s) == Fields(s[1..]);
    assert AllSpace([s[0]] + g[0]) by {
      assert ([s[0]] + g[0])[1..] == g[0];
    }
    assert Separators(seps) by {
      forall i | 0 < i < |seps|
        ensures seps[i] == g[i]
      {
      }
    }
    LayoutConsSpace(Fields(s[1..]), g, s[0]);
    assert [s[0]] + s[1..] == s;
  }

  /** A word in front of a layout whose first separator is empty. */
  lemma LayoutConsWord(w: string, ws: seq<string>, seps: seq<string>)
    requires |seps| == |ws| + 1
    ensures Layout([w] + ws, [""] + seps) == w + Layout(ws, seps)
  {
    assert ([w] + ws)[0] == w && ([w] + ws)[1..] == ws;
    assert ([""] + seps)[0] == "" && ([""] + seps)[1..] == seps;
    assert "" + w == w;
  }

  /** An empty separator in front keeps the separators valid when the
      next one is non-empty or is the last. */
  lemma SeparatorsConsEmpty(g: seq<string>)
    requires Separators(g) && g != []
    requires |g| > 1 ==> g[0] != []
    ensures Separators([""] + g)
  {
    var seps := [""] + g;
    forall i | 0 < i < |seps|
      ensures seps[i] == g[i - 1]
    {
    }
  }

  /** FieldsGaps for a string that starts with the word `w`, from
      FieldsGaps of the `rest` that follows it. */
  lemma FieldsGapsWord(s: string, w: string, rest: string)
    requires s != [] && !IsSpace(s[0])
    requires w == TakeWord(s) && rest == s[|w|..]
    requires Separators(Gaps(rest)) && Layout(Fields(rest), Gaps(rest)) == rest
    ensures Separators(Gaps(s)) && Layout(Fields(s), Gaps(s)) == s
  {
    var g := Gaps(rest);
    assert Gaps(s) == [""] + g;
    assert Fields(s) == [w] + Fields(rest);
    if |g| > 1 {
      assert rest != [] && IsSpace(rest[0]);
    }
    SeparatorsConsEmpty(g);
    LayoutConsWord(w, Fields(rest), g);
    assert w == s[..|w|];
  }

  /** Every string is its fields laid out between its gaps. */
  lemma {:induction false} FieldsGaps(s: string)
    ensures Separators(Gaps(s))
    ensures Layout(Fields(s), Gaps(s)) == s
    decreases |s|
  {
    if s == [] {
    } else if IsSpace(s[0]) {
      FieldsGaps(s[1..]);
      FieldsGapsSpace(s);
    } else {
      var w := TakeWord(s);
      FieldsGaps(s[|w|..]);
      FieldsGapsWord(s, w, s[|w|..]);
    }
  }

  /** `strings.Fields` completely characterised: `ws` is the list of fields of
      `s` exactly when `s` is the words of `ws`, in order, laid out between
      runs of white space that are non-empty between two words. */
  lemma FieldsCharacterised(s: string, ws: seq<string>)
    requires Words(ws)
    ensures Fields(s) == ws <==> exists seps :: |seps| == |ws| + 1 && Separators(seps) && Layout(ws, seps) == s
  {
    if Fields(s) == ws {
      FieldsGaps(s);
      assert |Gaps(s)| == |ws| + 1 && Separators(Gaps(s)) && Layout(ws, Gaps(s)) == s;
    }
    if exists seps :: |seps| == |ws| + 1 && Separators(seps) && Layout(ws, seps) == s {
      var seps :| |seps| == |ws| + 1 && Separators(seps) && Layout(ws, seps) == s;
      FieldsLayout(ws, seps);
    }
  }
}
