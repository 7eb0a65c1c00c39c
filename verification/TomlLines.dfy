/** The line-level facts the laws of the config.toml merge rest on. */
module TomlLines {
  import opened Core
  import opened TomlMerge

  // ---- lines and text --------------------------------------------------------------------

  lemma {:induction false} SplitLine(l: string, t: string)
    requires OneLine(l)
    ensures Split(l + "\n" + t) == [l] + Split(t)
    ensures Split(l) == [l]
  {
    if l == "" {
      assert l + "\n" + t == "\n" + t;
      assert ("\n" + t)[1..] == t;
    } else {
      assert OneLine(l[1..]) by {
        assert forall i :: 0 <= i < |l| - 1 ==> l[1..][i] == l[i + 1];
      }
      SplitLine(l[1..], t);
      assert (l + "\n" + t)[1..] == l[1..] + "\n" + t;
      assert [l[0]] + l[1..] == l;
    }
  }

  lemma {:induction false} SplitJoin(lines: seq<string>)
    requires lines != [] && AllOneLine(lines)
    ensures Split(Join(lines)) == lines
  {
    assert OneLine(lines[0]);
    if |lines| == 1 {
      SplitLine(lines[0], "");
    } else {
      assert AllOneLine(lines[1..]) by { assert forall i :: 0 <= i < |lines| - 1 ==> lines[1..][i] == lines[i + 1]; }
      SplitJoin(lines[1..]);
      SplitLine(lines[0], Join(lines[1..]));
    }
  }

  lemma {:induction false} SplitOneLine(text: string)
    ensures AllOneLine(Split(text))
  {
    if text != "" {
      SplitOneLine(text[1..]);
      var rest := Split(text[1..]);
      assert OneLine(rest[0]);
      if text[0] != '\n' {
        assert OneLine([text[0]] + rest[0]);
      }
    }
  }

  lemma {:induction false} JoinSnoc(lines: seq<string>, l: string)
    requires lines != []
    ensures Join(lines + [l]) == Join(lines) + "\n" + l
  {
    if |lines| > 1 {
      JoinSnoc(lines[1..], l);
      assert (lines + [l])[1..] == lines[1..] + [l];
    } else {
      assert lines + [l] == [lines[0], l];
    }
  }

  // ---- the collapse of blank runs --------------------------------------------------------

  /** The lines without every empty line that follows an empty line. */
  function Thinned(lines: seq<string>, gap: bool): seq<string> {
    if lines == [] then []
    else if lines[0] == "" then (if gap then [] else [""]) + Thinned(lines[1..], true)
    else [lines[0]] + Thinned(lines[1..], false)
  }

  lemma {:induction false} ThinnedLast(lines: seq<string>, gap: bool)
    requires lines != [] && lines[|lines| - 1] != ""
    ensures var r := Thinned(lines, gap); r != [] && r[|r| - 1] == lines[|lines| - 1]
    ensures lines[0] != "" ==> Thinned(lines, gap)[0] == lines[0]
  {
    if |lines| > 1 {
      ThinnedLast(lines[1..], lines[0] == "");
    }
  }

  lemma {:induction false} CollapseLine(l: string, t: string, run: nat)
    requires OneLine(l) && l != ""
    ensures Collapse(l + t, run) == l + Collapse(t, 0)
  {
    assert (l + t)[1..] == l[1..] + t;
    assert l[0] != '\n';
    if |l| > 1 {
      assert OneLine(l[1..]) by {
        assert forall i :: 0 <= i < |l| - 1 ==> l[1..][i] == l[i + 1];
      }
      CollapseLine(l[1..], t, 0);
      assert [l[0]] + (l[1..] + Collapse(t, 0)) == l + Collapse(t, 0);
    } else {
      assert l[1..] + t == t;
      assert l == [l[0]];
    }
  }

  lemma {:induction false} CollapseBreak(t: string, run: nat)
    ensures Collapse("\n" + t, run) == (if run < 2 then "\n" else "") + Collapse(t, if run < 2 then run + 1 else 2)
  {
    assert ("\n" + t)[1..] == t;
  }

  lemma {:induction false} JoinCons(l: string, rest: seq<string>)
    requires rest != []
    ensures Join([l] + rest) == l + ("\n" + Join(rest))
  {
    assert ([l] + rest)[1..] == rest;
  }

  /** Collapsing newline runs in the text is thinning its lines. */
  lemma {:induction false} CollapseJoin(lines: seq<string>, gap: bool)
    requires lines != [] && lines[|lines| - 1] != "" && AllOneLine(lines)
    ensures Collapse(Join(lines), if gap then 2 else 1) == Join(Thinned(lines, gap))
  {
    var l, rest := lines[0], lines[1..];
    assert OneLine(l);
    if rest == [] {
      CollapseLine(l, "", if gap then 2 else 1);
      assert l + "" == l;
      assert Thinned(lines, gap) == [l];
    } else {
      assert lines == [l] + rest;
      JoinCons(l, rest);
      assert AllOneLine(rest) by { assert forall i :: 0 <= i < |rest| ==> rest[i] == lines[i + 1]; }
      CollapseJoin(rest, l == "");
      ThinnedLast(rest, l == "");
      JoinCons(l, Thinned(rest, l == ""));
      if l == "" {
        assert "" + ("\n" + Join(rest)) == "\n" + Join(rest);
        CollapseBreak(Join(rest), if gap then 2 else 1);
        assert gap ==> [] + Thinned(rest, true) == Thinned(rest, true);
      } else {
        CollapseLine(l, "\n" + Join(rest), if gap then 2 else 1);
        CollapseBreak(Join(rest), 0);
      }
    }
  }

  lemma {:induction false} ThinnedAppend(a: seq<string>, b: seq<string>, gap: bool)
    requires a != [] && a[|a| - 1] != ""
    ensures Thinned(a + b, gap) == Thinned(a, gap) + Thinned(b, false)
  {
    assert (a + b)[1..] == a[1..] + b;
    if |a| > 1 {
      ThinnedAppend(a[1..], b, a[0] == "");
    } else {
      assert a[1..] + b == b;
    }
  }

  lemma {:induction false} ThinnedSolid(a: seq<string>, gap: bool)
    requires forall i :: 0 <= i < |a| ==> a[i] != ""
    ensures Thinned(a, gap) == a
  {
    if a != [] {
      ThinnedSolid(a[1..], false);
    }
  }

  lemma {:induction false} ThinnedTwice(a: seq<string>, gap: bool)
    ensures Thinned(Thinned(a, gap), gap) == Thinned(a, gap)
  {
    if a != [] {
      var rest := Thinned(a[1..], a[0] == "");
      ThinnedTwice(a[1..], a[0] == "");
      if a[0] != "" {
        assert ([a[0]] + rest)[1..] == rest;
      } else if gap {
        assert [] + rest == rest;
      } else {
        assert ([""] + rest)[1..] == rest;
      }
    }
  }

  lemma {:induction false} ThinnedMembers(a: seq<string>, gap: bool)
    ensures forall l :: l in Thinned(a, gap) ==> l in a
  {
    if a != [] {
      ThinnedMembers(a[1..], a[0] == "");
    }
  }

  // ---- carriage returns at line ends -----------------------------------------------------

  predicate EndsInCr(l: string) {
    l != "" && l[|l| - 1] == '\r'
  }

  function StripCr(l: string): string {
    if EndsInCr(l) then l[..|l| - 1] else l
  }

  function StripAll(lines: seq<string>): seq<string> {
    if lines == [] then [] else [StripCr(lines[0])] + StripAll(lines[1..])
  }

  predicate NoCrEnds(lines: seq<string>) {
    forall l :: l in lines ==> !EndsInCr(l)
  }

  lemma {:induction false} DropCrChar(c: char, t: string)
    requires c == '\r' && t != "" ==> t[0] != '\n'
    ensures DropCr([c] + t) == [c] + DropCr(t)
  {
    assert ([c] + t)[1..] == t;
  }

  lemma {:induction false} StripCrCons(l: string)
    requires l != "" && (|l| == 1 ==> l[0] != '\r')
    ensures StripCr(l) == [l[0]] + StripCr(l[1..])
  {
    if |l| == 1 {
      assert l == [l[0]];
    } else if EndsInCr(l) {
      assert l[..|l| - 1] == [l[0]] + l[1..][..|l| - 2];
    } else {
      assert l == [l[0]] + l[1..];
    }
  }

  lemma {:induction false} DropCrBreak(t: string)
    ensures DropCr("\n" + t) == "\n" + DropCr(t)
    ensures DropCr("\r" + ("\n" + t)) == "\n" + DropCr(t)
  {
    assert ("\n" + t)[1..] == t;
    assert ("\r" + ("\n" + t))[2..] == t;
  }

  lemma {:induction false} OneLineTail(l: string)
    requires l != "" && OneLine(l)
    ensures OneLine(l[1..]) && l == [l[0]] + l[1..]
  {
    assert forall i :: 0 <= i < |l| - 1 ==> l[1..][i] == l[i + 1];
  }

  lemma {:induction false} DropCrLine(l: string, t: string)
    requires OneLine(l)
    ensures DropCr(l + "\n" + t) == StripCr(l) + "\n" + DropCr(t)
  {
    if l == "" || l == "\r" {
      DropCrShort(l, t);
    } else {
      OneLineTail(l);
      DropCrLine(l[1..], t);
      DropCrCons(l, l[1..], t);
    }
  }

  lemma {:induction false} DropCrShort(l: string, t: string)
    requires l == "" || l == "\r"
    ensures DropCr(l + "\n" + t) == StripCr(l) + "\n" + DropCr(t)
  {
    DropCrBreak(t);
    Regroup(l, "\n", t);
    EmptyEnds("\n" + t);
    EmptyEnds("\n");
    EmptyEnds("\n" + DropCr(t));
  }

  /** A character that is not a carriage return before a line feed stays. */
  lemma {:induction false} DropCrCons(l: string, rest: string, t: string)
    requires l != "" && l != "\r" && rest == l[1..] && OneLine(rest)
    requires DropCr(rest + "\n" + t) == StripCr(rest) + "\n" + DropCr(t)
    ensures DropCr(l + "\n" + t) == StripCr(l) + "\n" + DropCr(t)
  {
    var tail := rest + "\n" + t;
    StripCrCons(l);
    assert l + "\n" + t == [l[0]] + tail;
    assert rest != "" ==> tail[0] == rest[0] && rest[0] in rest;
    DropCrChar(l[0], tail);
    Regroup([l[0]], StripCr(rest) + "\n", DropCr(t));
    Regroup([l[0]], StripCr(rest), "\n");
  }

  /** Reading a text back drops one carriage return from the end of each line. */
  lemma {:induction false} DropCrJoin(lines: seq<string>)
    requires AllOneLine(lines)
    ensures DropCr(Join(lines + [""])) == Join(StripAll(lines) + [""])
  {
    if lines == [] {
      assert lines + [""] == [""];
      assert StripAll(lines) + [""] == [""];
    } else {
      var rest := lines[1..] + [""];
      assert OneLine(lines[0]);
      assert AllOneLine(lines[1..]) by { assert forall i :: 0 <= i < |lines| - 1 ==> lines[1..][i] == lines[i + 1]; }
      DropCrJoin(lines[1..]);
      assert lines + [""] == [lines[0]] + rest;
      JoinCons(lines[0], rest);
      DropCrLine(lines[0], Join(rest));
      assert lines[0] + ("\n" + Join(rest)) == lines[0] + "\n" + Join(rest);
      JoinCons(StripCr(lines[0]), StripAll(lines[1..]) + [""]);
      assert StripAll(lines) + [""] == [StripCr(lines[0])] + (StripAll(lines[1..]) + [""]);
    }
  }

  lemma {:induction false} StripAllAppend(a: seq<string>, b: seq<string>)
    ensures StripAll(a + b) == StripAll(a) + StripAll(b)
  {
    if a == [] {
      assert a + b == b;
    } else {
      StripAllAppend(a[1..], b);
      assert (a + b)[1..] == a[1..] + b;
    }
  }

  lemma {:induction false} StripAllShape(a: seq<string>)
    ensures |StripAll(a)| == |a|
    ensures forall i :: 0 <= i < |a| ==> StripAll(a)[i] == StripCr(a[i])
  {
    if a != [] {
      StripAllShape(a[1..]);
    }
  }

  lemma {:induction false} StripAllClean(a: seq<string>)
    requires NoCrEnds(a)
    ensures StripAll(a) == a
  {
    StripAllShape(a);
    forall i | 0 <= i < |a| ensures StripAll(a)[i] == a[i] { assert a[i] in a; }
  }

  // ---- a trailing carriage return never changes what a line is ---------------------------

  lemma {:induction false} TrimStartSpace(l: string, c: char)
    requires IsSpace(c)
    ensures TrimStart(l + [c]) == if TrimStart(l) == "" then "" else TrimStart(l) + [c]
  {
    if l == "" {
      assert l + [c] == [c];
      assert [c][1..] == "";
    } else {
      assert (l + [c])[1..] == l[1..] + [c];
      if IsSpace(l[0]) { TrimStartSpace(l[1..], c); }
    }
  }

  lemma {:induction false} AssignsSpace(l: string, c: char, key: string)
    requires IsSpace(c) && key != "" && !IsSpace(key[|key| - 1])
    ensures Assigns(l + [c], key) == Assigns(l, key)
  {
    var t := TrimStart(l);
    TrimStartSpace(l, c);
    if t != "" && key <= t + [c] {
      assert key[|key| - 1] == (t + [c])[|key| - 1];
      assert key <= t;
      assert (t + [c])[|key|..] == t[|key|..] + [c];
      TrimStartSpace(t[|key|..], c);
    }
  }

  lemma {:induction false} SqueezedAppend(a: string, b: string)
    ensures Squeezed(a + b) == Squeezed(a) + Squeezed(b)
  {
    if a == "" {
      assert a + b == b;
    } else {
      SqueezedAppend(a[1..], b);
      assert (a + b)[1..] == a[1..] + b;
    }
  }

  lemma {:induction false} ManagedSpace(l: string, c: char)
    requires IsSpace(c)
    ensures ManagedLine(l + [c]) == ManagedLine(l)
  {
    AssignsSpace(l, c, "model");
    AssignsSpace(l, c, "model_provider");
    AssignsSpace(l, c, "model_context_window");
    AssignsSpace(l, c, "model_max_output_tokens");
  }

  lemma {:induction false} StripCrKind(l: string, key: string)
    ensures IsBlank(StripCr(l)) == IsBlank(l)
    ensures IsHeader(StripCr(l)) == IsHeader(l)
    ensures OwnHeader(StripCr(l), key) == OwnHeader(l, key)
    ensures ManagedLine(StripCr(l)) == ManagedLine(l)
    ensures OneLine(l) ==> OneLine(StripCr(l))
  {
    if EndsInCr(l) {
      var m := StripCr(l);
      assert l == m + ['\r'];
      TrimStartSpace(m, '\r');
      TrimStartBlank(l);
      TrimStartBlank(m);
      SqueezedAppend(m, ['\r']);
      assert Squeezed(['\r']) == "";
      assert Squeezed(m) + "" == Squeezed(m);
      ManagedSpace(m, '\r');
    }
  }
}
