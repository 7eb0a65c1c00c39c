/** When the config.toml merge leaves the user's lines as they were written: what the comment at
    src/codex/tomlMerge.ts:10-11 promises. */
module TomlVerbatim {
  import opened Core
  import opened TomlLines
  import opened TomlMerge
  import opened TomlMergeLaws

  // ---- lines as written, and as read -----------------------------------------------------

  /** The user's lines the merge keeps, each as it was written. */
  function WrittenRoot(text: string): seq<string> {
    KeptRoot(Split(text))
  }

  function WrittenTables(text: string, key: string): seq<string> {
    KeptSections(Split(text), key)
  }

  /** Lines without the carriage return before their line feed; the last may have no line feed. */
  function Shorn(lines: seq<string>, open: bool): seq<string> {
    if open && lines != [] then StripAll(lines[..|lines| - 1]) + [lines[|lines| - 1]] else StripAll(lines)
  }

  lemma {:induction false} ShornShape(lines: seq<string>, open: bool)
    ensures |Shorn(lines, open)| == |lines|
    ensures forall i :: 0 <= i < |lines| ==>
      Shorn(lines, open)[i] == if open && i == |lines| - 1 then lines[i] else StripCr(lines[i])
  {
    StripAllShape(lines);
    if lines != [] { StripAllShape(lines[..|lines| - 1]); }
  }

  lemma {:induction false} ShornKinds(lines: seq<string>, open: bool, key: string)
    ensures |Shorn(lines, open)| == |lines|
    ensures forall i :: 0 <= i < |lines| ==> IsBlank(Shorn(lines, open)[i]) == IsBlank(lines[i])
    ensures forall i :: 0 <= i < |lines| ==> IsHeader(Shorn(lines, open)[i]) == IsHeader(lines[i])
    ensures forall i :: 0 <= i < |lines| ==> OwnHeader(Shorn(lines, open)[i], key) == OwnHeader(lines[i], key)
    ensures forall i :: 0 <= i < |lines| ==> ManagedLine(Shorn(lines, open)[i]) == ManagedLine(lines[i])
  {
    ShornShape(lines, open);
    forall i | 0 <= i < |lines|
      ensures IsBlank(StripCr(lines[i])) == IsBlank(lines[i]) && IsHeader(StripCr(lines[i])) == IsHeader(lines[i])
      ensures OwnHeader(StripCr(lines[i]), key) == OwnHeader(lines[i], key)
      ensures ManagedLine(StripCr(lines[i])) == ManagedLine(lines[i])
    {
      StripCrKind(lines[i], key);
    }
  }

  lemma {:induction false} DropCrOneLine(l: string)
    requires OneLine(l)
    ensures DropCr(l) == l
  {
    if l != "" {
      assert |l| >= 2 ==> l[1] in l;
      assert OneLine(l[1..]) by { assert forall i :: 0 <= i < |l| - 1 ==> l[1..][i] == l[i + 1]; }
      DropCrOneLine(l[1..]);
    }
  }

  lemma {:induction false} JoinSplit(text: string)
    ensures Join(Split(text)) == text
  {
    if text != "" {
      JoinSplit(text[1..]);
      var rest := Split(text[1..]);
      if text[0] == '\n' {
        JoinCons("", rest);
      } else if |rest| > 1 {
        assert rest == [rest[0]] + rest[1..];
        JoinCons(rest[0], rest[1..]);
        JoinCons([text[0]] + rest[0], rest[1..]);
        Regroup([text[0]], rest[0], "\n" + Join(rest[1..]));
      }
    }
  }

  lemma {:induction false} ShornCons(l: string, rest: seq<string>)
    requires rest != []
    ensures Shorn([l] + rest, true) == [StripCr(l)] + Shorn(rest, true)
  {
    var all := [l] + rest;
    assert all[..|all| - 1] == [l] + rest[..|rest| - 1];
    StripAllAppend([l], rest[..|rest| - 1]);
    assert [l][1..] == [];
  }

  lemma {:induction false} DropCrLines(lines: seq<string>)
    requires lines != [] && AllOneLine(lines)
    ensures DropCr(Join(lines)) == Join(Shorn(lines, true))
  {
    var l, rest := lines[0], lines[1..];
    assert OneLine(l) && lines == [l] + rest;
    if rest == [] {
      DropCrOneLine(l);
      assert lines[..0] == [] && Shorn(lines, true) == [l];
    } else {
      assert AllOneLine(rest) by { assert forall i :: 0 <= i < |rest| ==> rest[i] == lines[i + 1]; }
      DropCrLines(rest);
      JoinCons(l, rest);
      Regroup(l, "\n", Join(rest));
      DropCrLine(l, Join(rest));
      ShornCons(l, rest);
      ShornShape(rest, true);
      JoinCons(StripCr(l), Shorn(rest, true));
      Regroup(StripCr(l), "\n", Join(Shorn(rest, true)));
    }
  }

  /** Reading drops one carriage return before each line feed. */
  lemma {:induction false} ReadLines(text: string)
    ensures Split(DropCr(text)) == Shorn(Split(text), true)
  {
    var lines := Split(text);
    SplitOneLine(text);
    JoinSplit(text);
    DropCrLines(lines);
    ShornShape(lines, true);
    forall i | 0 <= i < |lines| ensures OneLine(Shorn(lines, true)[i]) {
      assert OneLine(lines[i]);
      StripCrKind(lines[i], "");
    }
    SplitJoin(Shorn(lines, true));
  }

  // ---- every pass keeps the same lines ---------------------------------------------------

  lemma {:induction false} SameFirstHeader(a: seq<string>, b: seq<string>)
    requires |a| == |b| && forall i :: 0 <= i < |a| ==> IsHeader(a[i]) == IsHeader(b[i])
    ensures FirstHeader(a) == FirstHeader(b)
  {
    if a != [] && !IsHeader(a[0]) { SameFirstHeader(a[1..], b[1..]); }
  }

  lemma {:induction false} StripUnmanaged(a: seq<string>)
    ensures Unmanaged(StripAll(a)) == StripAll(Unmanaged(a))
  {
    StripAllShape(a);
    if a != [] {
      var init, last := a[..|a| - 1], a[|a| - 1];
      assert a == init + [last];
      StripAllAppend(init, [last]);
      assert [last][1..] == [] && StripAll([last]) == [StripCr(last)];
      StripUnmanaged(init);
      StripCrKind(last, "");
      assert StripAll(a)[..|a| - 1] == StripAll(init);
      StripAllAppend(Unmanaged(init), if ManagedLine(last) then [] else [last]);
    }
  }

  lemma {:induction false} ShornUnmanaged(a: seq<string>, open: bool)
    ensures Unmanaged(Shorn(a, open)) == Shorn(Unmanaged(a), open && a != [] && !ManagedLine(a[|a| - 1]))
  {
    StripUnmanaged(a);
    if open && a != [] {
      var init, last := a[..|a| - 1], a[|a| - 1];
      StripUnmanaged(init);
      assert (StripAll(init) + [last])[..|Shorn(a, true)| - 1] == StripAll(init);
      EmptyEnds(Unmanaged(init));
      EmptyEnds(StripAll(Unmanaged(init)));
      assert (Unmanaged(init) + [last])[..|Unmanaged(init)|] == Unmanaged(init);
    }
  }

  lemma {:induction false} SameOwnTable(a: seq<string>, b: seq<string>, key: string, i: int)
    requires |a| == |b| && -1 <= i < |a|
    requires forall k :: 0 <= k < |a| ==>
      IsHeader(a[k]) == IsHeader(b[k]) && OwnHeader(a[k], key) == OwnHeader(b[k], key)
    ensures NearestHeader(a, i) == NearestHeader(b, i) && InOwnTable(a, key, i) == InOwnTable(b, key, i)
    decreases i + 1
  {
    if i >= 0 && !IsHeader(a[i]) { SameOwnTable(a, b, key, i - 1); }
  }

  lemma {:induction false} StripSnoc(a: seq<string>, l: string)
    ensures StripAll(a + [l]) == StripAll(a) + [StripCr(l)]
  {
    StripAllAppend(a, [l]);
    assert [l][1..] == [];
  }

  predicate SameHeaders(a: seq<string>, b: seq<string>, key: string) {
    |a| == |b| && forall k :: 0 <= k < |a| ==>
        IsHeader(a[k]) == IsHeader(b[k]) && OwnHeader(a[k], key) == OwnHeader(b[k], key)
  }

  lemma {:induction false} StripOutside(a: seq<string>, b: seq<string>, key: string, n: nat)
    requires SameHeaders(a, b, key) && n <= |a| && forall i :: 0 <= i < n ==> b[i] == StripCr(a[i])
    ensures OutsideOwn(b, key, n) == StripAll(OutsideOwn(a, key, n))
  {
    if n > 0 {
      StripOutside(a, b, key, n - 1);
      SameOwnTable(a, b, key, n - 1);
      StripSnoc(OutsideOwn(a, key, n - 1), a[n - 1]);
      EmptyEnds(OutsideOwn(a, key, n - 1));
      EmptyEnds(OutsideOwn(b, key, n - 1));
    }
  }

  lemma {:induction false} ShornTables(a: seq<string>, key: string)
    requires a != []
    ensures RemoveProviderTable(Shorn(a, true), key)
         == Shorn(RemoveProviderTable(a, key), !InOwnTable(a, key, |a| - 1))
  {
    var n, b := |a| - 1, Shorn(a, true);
    ShornKinds(a, true, key);
    ShornShape(a, true);
    StripOutside(a, b, key, n);
    SameOwnTable(b, a, key, n);
    var before := OutsideOwn(a, key, n);
    EmptyEnds(before);
    EmptyEnds(StripAll(before));
    assert (before + [a[n]])[..|before|] == before;
  }

  lemma {:induction false} ShornLead(a: seq<string>, open: bool)
    ensures DropLead(Shorn(a, open)) == Shorn(DropLead(a), open)
  {
    ShornKinds(a, open, "");
    if a != [] && IsBlank(a[0]) {
      ShornLead(a[1..], open);
      ShornShape(a, open);
      ShornShape(a[1..], open);
      assert Shorn(a, open)[1..] == Shorn(a[1..], open);
    }
  }

  lemma {:induction false} ShornTail(a: seq<string>, open: bool)
    ensures DropTail(Shorn(a, open)) == Shorn(DropTail(a), open && a != [] && !IsBlank(a[|a| - 1]))
  {
    ShornKinds(a, open, "");
    if a != [] && IsBlank(a[|a| - 1]) {
      var init := a[..|a| - 1];
      ShornTail(init, false);
      ShornShape(a, open);
      ShornShape(init, false);
      assert Shorn(a, open)[..|a| - 1] == Shorn(init, false);
    }
  }

  predicate EndsSolid(a: seq<string>) {
    a != [] && !IsBlank(a[|a| - 1])
  }

  lemma {:induction false} ShornEdges(a: seq<string>, open: bool)
    ensures TrimBlankEdges(Shorn(a, open)) == Shorn(TrimBlankEdges(a), open && EndsSolid(a))
  {
    ShornLead(a, open);
    ShornTail(DropLead(a), open);
    LeadEnd(a);
  }

  lemma {:induction false} LeadEnd(a: seq<string>)
    ensures EndsSolid(DropLead(a)) <==> EndsSolid(a)
  {
    if a != [] && IsBlank(a[0]) {
      LeadEnd(a[1..]);
    }
  }

  lemma {:induction false} UnmanagedEnd(a: seq<string>)
    requires a != [] && !ManagedLine(a[|a| - 1])
    ensures Unmanaged(a) != [] && Unmanaged(a)[|Unmanaged(a)| - 1] == a[|a| - 1]
  {
  }

  lemma {:induction false} OutsideEnd(a: seq<string>, key: string)
    requires a != [] && !InOwnTable(a, key, |a| - 1)
    ensures var kept := RemoveProviderTable(a, key); kept != [] && kept[|kept| - 1] == a[|a| - 1]
  {
  }

  /** The file's last line is a kept line of the root section. */
  predicate LastInRoot(lines: seq<string>) {
    lines != [] && FirstHeader(lines) == |lines| && !ManagedLine(lines[|lines| - 1]) && !IsBlank(lines[|lines| - 1])
  }

  /** The file's last line is a kept line of the tables. */
  predicate LastInTables(lines: seq<string>, key: string) {
    var tables := lines[FirstHeader(lines)..];
    tables != [] && !InOwnTable(tables, key, |tables| - 1) && !IsBlank(tables[|tables| - 1])
  }

  lemma {:induction false} ShornParts(lines: seq<string>)
    requires lines != []
    ensures var (n, read) := (FirstHeader(lines), Shorn(lines, true));
      && FirstHeader(read) == n && |read| == |lines|
      && read[..n] == Shorn(lines[..n], n == |lines|) && read[n..] == Shorn(lines[n..], true)
  {
    var n, read := FirstHeader(lines), Shorn(lines, true);
    ShornKinds(lines, true, "");
    SameFirstHeader(read, lines);
    ShornShape(lines, true);
    ShornShape(lines[..n], n == |lines|);
    ShornShape(lines[n..], true);
  }

  lemma {:induction false} RootRead(lines: seq<string>)
    requires lines != []
    ensures KeptRoot(Shorn(lines, true)) == Shorn(KeptRoot(lines), LastInRoot(lines))
  {
    var n := FirstHeader(lines);
    var root := lines[..n];
    ShornParts(lines);
    ShornUnmanaged(root, n == |lines|);
    var open := n == |lines| && root != [] && !ManagedLine(root[|root| - 1]);
    ShornEdges(Unmanaged(root), open);
    if open { UnmanagedEnd(root); }
  }

  lemma {:induction false} SectionsRead(tables: seq<string>, key: string)
    ensures var open := tables != [] && !InOwnTable(tables, key, |tables| - 1) && !IsBlank(tables[|tables| - 1]);
      TrimBlankEdges(RemoveProviderTable(Shorn(tables, true), key))
      == Shorn(TrimBlankEdges(RemoveProviderTable(tables, key)), open)
  {
    if tables != [] {
      var open := !InOwnTable(tables, key, |tables| - 1);
      ShornTables(tables, key);
      ShornEdges(RemoveProviderTable(tables, key), open);
      if open { OutsideEnd(tables, key); }
    }
  }

  lemma {:induction false} TablesRead(lines: seq<string>, key: string)
    requires lines != []
    ensures KeptSections(Shorn(lines, true), key) == Shorn(KeptSections(lines, key), LastInTables(lines, key))
  {
    ShornParts(lines);
    TablesReadAt(lines, Shorn(lines, true), key);
  }

  lemma {:induction false} TablesReadAt(lines: seq<string>, read: seq<string>, key: string)
    requires FirstHeader(read) == FirstHeader(lines)
    requires read[FirstHeader(read)..] == Shorn(lines[FirstHeader(lines)..], true)
    ensures KeptSections(read, key) == Shorn(KeptSections(lines, key), LastInTables(lines, key))
  {
    SectionsRead(lines[FirstHeader(lines)..], key);
  }

  // ---- the condition ---------------------------------------------------------------------

  /** No empty line follows an empty line. */
  predicate NoGaps(lines: seq<string>) {
    forall i :: 0 <= i < |lines| - 1 ==> !(lines[i] == "" && lines[i + 1] == "")
  }

  /** No line that stands before a line feed ends in a carriage return. */
  predicate NoCrLf(lines: seq<string>, open: bool) {
    forall i :: 0 <= i < |lines| && !(open && i == |lines| - 1) ==> !EndsInCr(lines[i])
  }

  lemma {:induction false} NoGapsTail(a: seq<string>)
    requires a != []
    ensures NoGaps(a) <==> NoGaps(a[1..]) && (|a| > 1 ==> !(a[0] == "" && a[1] == ""))
  {
    var rest := a[1..];
    assert forall i :: 0 <= i < |rest| ==> rest[i] == a[i + 1];
    if NoGaps(rest) && (|a| > 1 ==> !(a[0] == "" && a[1] == "")) {
      forall i | 0 <= i < |a| - 1 ensures !(a[i] == "" && a[i + 1] == "") {
        if i > 0 { assert !(rest[i - 1] == "" && rest[i] == ""); }
      }
    }
  }

  lemma {:induction false} ThinnedWhole(a: seq<string>, gap: bool)
    ensures |Thinned(a, gap)| <= |a|
    ensures |Thinned(a, gap)| == |a| ==> Thinned(a, gap) == a
    ensures Thinned(a, gap) == a <==> NoGaps(a) && (gap && a != [] ==> a[0] != "")
  {
    if a != [] {
      ThinnedWhole(a[1..], a[0] == "");
      NoGapsTail(a);
      EmptyEnds(Thinned(a[1..], true));
      if |Thinned(a, gap)| == |a| { assert a == [a[0]] + a[1..]; }
    }
  }

  lemma {:induction false} ShornWhole(a: seq<string>, open: bool)
    ensures Shorn(a, open) == a <==> NoCrLf(a, open)
  {
    ShornShape(a, open);
    if Shorn(a, open) == a {
      forall i | 0 <= i < |a| && !(open && i == |a| - 1) ensures !EndsInCr(a[i]) {
        assert Shorn(a, open)[i] == StripCr(a[i]);
      }
    }
  }

  lemma {:induction false} WholeIff(a: seq<string>, open: bool)
    ensures Thinned(Shorn(a, open), false) == a <==> NoGaps(a) && NoCrLf(a, open)
  {
    ShornShape(a, open);
    ThinnedWhole(Shorn(a, open), false);
    ShornWhole(a, open);
    ThinnedWhole(a, false);
  }

  // ---- a file of blanks ------------------------------------------------------------------

  predicate AllBlank(lines: seq<string>) {
    forall i :: 0 <= i < |lines| ==> IsBlank(lines[i])
  }

  lemma {:induction false} BlankLines(text: string)
    requires IsBlank(text)
    ensures AllBlank(Split(text))
  {
    if text != "" {
      assert forall i :: 0 <= i < |text| - 1 ==> text[1..][i] == text[i + 1];
      BlankLines(text[1..]);
      assert IsBlank(Split(text[1..])[0]);
    }
  }

  lemma {:induction false} BlankUnmanaged(a: seq<string>)
    requires AllBlank(a)
    ensures AllBlank(Unmanaged(a))
  {
    if a != [] { BlankUnmanaged(a[..|a| - 1]); }
  }

  lemma {:induction false} BlankLead(a: seq<string>)
    requires AllBlank(a)
    ensures DropLead(a) == []
  {
    if a != [] { BlankLead(a[1..]); }
  }

  /** Nothing of a blank file is kept. */
  lemma {:induction false} BlankWritten(text: string, key: string)
    requires IsBlank(text)
    ensures WrittenRoot(text) == [] && WrittenTables(text, key) == []
  {
    var lines := Split(text);
    BlankLines(text);
    var n := FirstHeader(lines);
    if n < |lines| {
      TrimStartBlank(lines[n]);
      assert false;
    }
    assert lines[..n] == lines && lines[n..] == [];
    BlankUnmanaged(lines);
    BlankLead(Unmanaged(lines));
  }

  // ---- the merged file -------------------------------------------------------------------

  /** The merged file holds the user's kept lines exactly as they were written, between the
      managed settings and our table. */
  predicate Verbatim(text: string, p: Patch) {
    Split(Merge(Some(text), p))
    == Laid(ManagedBlock(p), WrittenRoot(text), WrittenTables(text, p.providerKey), BlockLines(p)) + [""]
  }

  lemma {:induction false} SameAfter(a: seq<string>, x: seq<string>, y: seq<string>)
    requires a + x == a + y
    ensures x == y
  {
    assert x == (a + x)[|a|..] == (a + y)[|a|..] == y;
  }

  lemma {:induction false} SameHalves(a: seq<string>, x: seq<string>, b: seq<string>, y: seq<string>)
    requires |a| == |b| && a + x == b + y
    ensures a == b && x == y
  {
    assert a == (a + x)[..|a|] == (b + y)[..|b|] == b;
    SameAfter(a, x, y);
  }

  lemma {:induction false} SameUnder(a: seq<string>, b: seq<string>)
    requires Under(a) == Under(b)
    ensures a == b
  {
    if a != [] { assert a == Under(a)[1..] == Under(b)[1..] == b; }
  }

  lemma {:induction false} LaidInTwo(managed: seq<string>, root: seq<string>, tables: seq<string>, block: seq<string>)
    ensures Laid(managed, root, tables, block) + [""]
         == managed + (Under(root) + (Under(tables) + ([""] + block + [""])))
  {
  }

  /** Shorter parts laid out alike are the same parts. */
  lemma {:induction false} SameLaid(managed: seq<string>, block: seq<string>, root: seq<string>, tables: seq<string>,
                                    root': seq<string>, tables': seq<string>)
    requires |root| <= |root'| && |tables| <= |tables'|
    requires Laid(managed, root, tables, block) + [""] == Laid(managed, root', tables', block) + [""]
    ensures root == root' && tables == tables'
  {
    var end := [""] + block + [""];
    LaidInTwo(managed, root, tables, block);
    LaidInTwo(managed, root', tables', block);
    SameAfter(managed, Under(root) + (Under(tables) + end), Under(root') + (Under(tables') + end));
    assert |Under(root)| == |Under(root')| && |Under(tables)| == |Under(tables')|;
    SameHalves(Under(root), Under(tables) + end, Under(root'), Under(tables') + end);
    SameHalves(Under(tables), end, Under(tables'), end);
    SameUnder(root, root');
    SameUnder(tables, tables');
  }

  /** What the merge makes of the kept lines, as they were written. */
  lemma {:induction false} ReadFromWritten(text: string, key: string)
    ensures var lines := Split(text);
      && UserRoot(Some(text)) == Shorn(WrittenRoot(text), LastInRoot(lines))
      && UserTables(Some(text), key) == Shorn(WrittenTables(text, key), LastInTables(lines, key))
  {
    if IsBlank(text) {
      BlankWritten(text, key);
    } else {
      ReadLines(text);
      RootRead(Split(text));
      TablesRead(Split(text), key);
    }
  }

  /** The merged file has the user's kept lines as they were written if and only if none of them
      is an empty line after an empty line and none ends in a carriage return before its line
      feed. */
  lemma {:induction false} VerbatimIff(text: string, p: Patch)
    requires SingleTable(p)
    ensures var (root, tables) := (WrittenRoot(text), WrittenTables(text, p.providerKey));
      var lines := Split(text);
      Verbatim(text, p)
      <==> NoGaps(root) && NoGaps(tables)
           && NoCrLf(root, LastInRoot(lines)) && NoCrLf(tables, LastInTables(lines, p.providerKey))
  {
    var lines, key := Split(text), p.providerKey;
    var root, tables := WrittenRoot(text), WrittenTables(text, key);
    ReadFromWritten(text, key);
    WholeIff(root, LastInRoot(lines));
    WholeIff(tables, LastInTables(lines, key));
    MergedLines(Some(text), p);
    var root', tables' := Thinned(UserRoot(Some(text)), false), Thinned(UserTables(Some(text), key), false);
    ThinnedShorn(root, LastInRoot(lines));
    ThinnedShorn(tables, LastInTables(lines, key));
    if Verbatim(text, p) { SameLaid(ManagedBlock(p), BlockLines(p), root', tables', root, tables); }
  }

  lemma {:induction false} ThinnedShorn(a: seq<string>, open: bool)
    ensures |Thinned(Shorn(a, open), false)| <= |a|
  {
    ShornShape(a, open);
    ThinnedWhole(Shorn(a, open), false);
  }

  lemma {:induction false} CrLfLine(key: string)
    ensures WrittenRoot("x\r\n") == ["x\r"] && WrittenTables("x\r\n", key) == []
    ensures !LastInRoot(Split("x\r\n"))
  {
    assert "x\r\n" == "x\r" + "\n" + "";
    SplitLine("x\r", "");
    assert Split("x\r\n") == ["x\r", ""];
    LoneLine("x\r");
  }

  /** A merge takes the carriage return out of a line with a Windows line ending. */
  lemma {:induction false} CrLfNotVerbatim(p: Patch)
    requires SingleTable(p)
    ensures Split(Merge(Some("x\r\n"), p)) == Laid(ManagedBlock(p), ["x"], [], BlockLines(p)) + [""]
    ensures !Verbatim("x\r\n", p)
  {
    var text, key := "x\r\n", p.providerKey;
    CrLfLine(key);
    ReadFromWritten(text, key);
    assert StripCr("x\r") == "x" && StripAll(["x\r"]) == ["x"];
    assert Thinned(["x"], false) == ["x"] && Thinned([], false) == [];
    MergedLines(Some(text), p);
    assert EndsInCr(WrittenRoot(text)[0]);
    VerbatimIff(text, p);
  }
}
