/** A merged config.toml as a reader finds it, setting by setting and table by table
    (src/codex/tomlMerge.ts). */
module TomlRead {
  import opened Core
  import opened TomlMerge
  import opened TomlLines
  import opened TomlMergeLaws

  // ---- a reader --------------------------------------------------------------------------

  /** A line that is not blank, and the table it stands in: "" above the first header. */
  datatype Entry = Entry(section: string, line: string)

  /** The first character of a line that is no white space is a bracket. */
  predicate Opens(line: string) {
    exists i :: 0 <= i < |line| && line[i] == '[' && IsBlank(line[..i])
  }

  /** The characters of a line that are no white space. */
  function Tight(line: string): string {
    if line == "" then ""
    else Tight(line[..|line| - 1]) + if IsSpace(line[|line| - 1]) then "" else [line[|line| - 1]]
  }

  /** The table the last line stands in. */
  function SectionOf(lines: seq<string>): string {
    if lines == [] then ""
    else if Opens(lines[|lines| - 1]) then Tight(lines[|lines| - 1])
    else SectionOf(lines[..|lines| - 1])
  }

  function Entries(lines: seq<string>): seq<Entry> {
    if lines == [] then []
    else
      Entries(lines[..|lines| - 1])
      + if IsBlank(lines[|lines| - 1]) then [] else [Entry(SectionOf(lines), lines[|lines| - 1])]
  }

  /** Where the first `=` stands. */
  function Cut(line: string): (n: nat)
    ensures n <= |line|
  {
    if line == "" || line[0] == '=' then 0 else 1 + Cut(line[1..])
  }

  /** The name a line sets, and the value it gives. */
  function NameOf(line: string): Option<string> {
    if Cut(line) == |line| then None else Some(Trim(line[..Cut(line)]))
  }

  function ValueOf(line: string): string {
    if Cut(line) == |line| then "" else Trim(line[Cut(line) + 1..])
  }

  /** An entry above all tables that sets this name. */
  predicate SetsRoot(e: Entry, name: string) {
    e.section == "" && NameOf(e.line) == Some(name)
  }

  predicate SetAt(entries: seq<Entry>, name: string, value: string, i: int) {
    && 0 <= i < |entries| && SetsRoot(entries[i], name) && ValueOf(entries[i].line) == value
    && forall j :: 0 <= j < |entries| && SetsRoot(entries[j], name) ==> j == i
  }

  /** The name is set at the root exactly once, to this value. */
  ghost predicate SetOnce(entries: seq<Entry>, name: string, value: string) {
    exists i :: SetAt(entries, name, value, i)
  }

  predicate SetNever(entries: seq<Entry>, name: string) {
    forall j :: 0 <= j < |entries| ==> !SetsRoot(entries[j], name)
  }

  ghost predicate SetIf(entries: seq<Entry>, name: string, value: Option<nat>) {
    if value.Some? then SetOnce(entries, name, Decimal(value.value)) else SetNever(entries, name)
  }

  /** An entry that is the program's to replace: one of its four settings at the root, or anything
      in its provider's table or a table below that. */
  predicate OfProgram(e: Entry, key: string) {
    || (e.section == "" && OwnName(NameOf(e.line)))
    || e.section == "[model_providers." + key + "]"
    || "[model_providers." + key + "." <= e.section
  }

  function Foreign(entries: seq<Entry>, key: string): seq<Entry> {
    if entries == [] then []
    else
      Foreign(entries[..|entries| - 1], key)
      + if OfProgram(entries[|entries| - 1], key) then [] else [entries[|entries| - 1]]
  }

  /** What the user has in a file: everything but the program's own. */
  function OfUser(existing: Option<string>, key: string): seq<Entry> {
    if existing.None? then [] else Foreign(Entries(Split(DropCr(existing.value))), key)
  }

  // ---- lexical facts ---------------------------------------------------------------------

  lemma {:induction false} TrimStartPast(w: string, s: string)
    requires IsBlank(w)
    ensures TrimStart(w + s) == TrimStart(s)
  {
    if w == "" {
      assert w + s == s;
    } else {
      assert (w + s)[1..] == w[1..] + s;
      TrimStartPast(w[1..], s);
    }
  }

  lemma {:induction false} TrimEndPast(s: string, w: string)
    requires IsBlank(w)
    ensures TrimEnd(s + w) == TrimEnd(s)
  {
    if w == "" {
      assert s + w == s;
    } else {
      assert (s + w)[..|s + w| - 1] == s + w[..|w| - 1];
      TrimEndPast(s, w[..|w| - 1]);
    }
  }

  lemma {:induction false} HeaderThenOpens(line: string)
    requires IsHeader(line)
    ensures Opens(line)
  {
    var w := StartParts(line);
    assert line[|w|] == '[' && line[..|w|] == w;
  }

  lemma {:induction false} OpensThenHeader(line: string)
    requires Opens(line)
    ensures IsHeader(line)
  {
    var i :| 0 <= i < |line| && line[i] == '[' && IsBlank(line[..i]);
    var rest := line[i..];
    assert rest[0] == '[' && !IsSpace('[');
    assert line == line[..i] + rest;
    TrimStartPast(line[..i], rest);
  }

  lemma {:induction false} HeaderOpens(line: string)
    ensures IsHeader(line) <==> Opens(line)
  {
    if IsHeader(line) { HeaderThenOpens(line); }
    if Opens(line) { OpensThenHeader(line); }
  }

  lemma {:induction false} TightCons(c: char, s: string)
    ensures Tight([c] + s) == (if IsSpace(c) then "" else [c]) + Tight(s)
  {
    var all := [c] + s;
    if s == "" {
      assert all[..0] == "" && Tight("") == "";
    } else {
      var init, d := s[..|s| - 1], s[|s| - 1];
      assert all[..|all| - 1] == [c] + init;
      TightCons(c, init);
      Regroup(if IsSpace(c) then "" else [c], Tight(init), if IsSpace(d) then "" else [d]);
    }
  }

  lemma {:induction false} TightSqueezed(s: string)
    ensures Tight(s) == Squeezed(s)
  {
    if s != "" {
      assert s == [s[0]] + s[1..];
      TightCons(s[0], s[1..]);
      TightSqueezed(s[1..]);
    }
  }

  /** A name without white space or `=` in it. */
  predicate PlainName(name: string) {
    name != "" && '=' !in name && forall i :: 0 <= i < |name| ==> !IsSpace(name[i])
  }

  lemma {:induction false} CutAt(a: string, b: string)
    requires '=' !in a
    ensures Cut(a + "=" + b) == |a|
  {
    var all := a + "=" + b;
    if a != "" {
      assert a[0] in a && all[1..] == a[1..] + "=" + b;
      CutAt(a[1..], b);
    }
  }

  lemma {:induction false} CutParts(line: string)
    requires Cut(line) < |line|
    ensures line == line[..Cut(line)] + "=" + line[Cut(line) + 1..] && '=' !in line[..Cut(line)]
  {
    if line[0] != '=' {
      CutParts(line[1..]);
      var n := Cut(line[1..]);
      assert line[..n + 1] == [line[0]] + line[1..][..n];
      assert line[n + 2..] == line[1..][n + 1..];
    }
  }

  lemma {:induction false} NoEqualsBlank(w: string)
    requires IsBlank(w)
    ensures '=' !in w
  {
  }

  /** White space around a plain name is trimmed from it. */
  lemma {:induction false} TrimAround(w: string, name: string, v: string)
    requires IsBlank(w) && IsBlank(v) && PlainName(name)
    ensures Trim(w + name + v) == name
  {
    Regroup(w, name, v);
    TrimStartPast(w, name + v);
    assert TrimStart(name + v) == name + v;
    TrimEndPast(name, v);
  }

  lemma {:induction false} NameOfParts(w: string, name: string, v: string, value: string)
    requires IsBlank(w) && IsBlank(v) && PlainName(name)
    ensures NameOf((w + name + v) + "=" + value) == Some(name)
  {
    var head := w + name + v;
    NoEqualsBlank(w);
    NoEqualsBlank(v);
    CutAt(head, value);
    assert (head + "=" + value)[..|head|] == head;
    TrimAround(w, name, v);
  }

  lemma {:induction false} PatternNames(line: string, name: string)
    requires PlainName(name) && Assigns(line, name)
    ensures NameOf(line) == Some(name)
  {
    var w := StartParts(line);
    var t := TrimStart(line);
    var after := t[|name|..];
    var v := StartParts(after);
    var value := TrimStart(after)[1..];
    assert t == name + after && TrimStart(after) == "=" + value;
    Regroup(w + name, v, "=" + value);
    Regroup(w, name, after);
    Regroup(w + name + v, "=", value);
    NameOfParts(w, name, v, value);
  }

  lemma {:induction false} PatternOf(w: string, name: string, v: string, value: string)
    requires IsBlank(w) && IsBlank(v) && PlainName(name)
    ensures Assigns(w + (name + (v + ("=" + value))), name)
  {
    var after := v + ("=" + value);
    TrimStartPast(w, name + after);
    assert TrimStart(name + after) == name + after;
    assert (name + after)[|name|..] == after;
    TrimStartPast(v, "=" + value);
    assert TrimStart("=" + value) == "=" + value;
  }

  lemma {:induction false} NamesPattern(line: string, name: string)
    requires PlainName(name) && NameOf(line) == Some(name)
    ensures Assigns(line, name)
  {
    CutParts(line);
    var head, value := line[..Cut(line)], line[Cut(line) + 1..];
    var w := StartParts(head);
    var v := EndParts(TrimStart(head));
    Regroup(w + (name + v), "=", value);
    Regroup(w, name + v, "=" + value);
    Regroup(name, v, "=" + value);
    PatternOf(w, name, v, value);
  }

  /** The pattern the merge matches is a setting of that name. */
  lemma {:induction false} AssignsIsSetting(line: string, name: string)
    requires PlainName(name)
    ensures Assigns(line, name) <==> NameOf(line) == Some(name)
  {
    if Assigns(line, name) { PatternNames(line, name); }
    if NameOf(line) == Some(name) { NamesPattern(line, name); }
  }

  /** One of the program's four names. */
  predicate OwnName(name: Option<string>) {
    || name == Some("model") || name == Some("model_provider")
    || name == Some("model_context_window") || name == Some("model_max_output_tokens")
  }

  lemma {:induction false} NamesPlain()
    ensures PlainName("model") && PlainName("model_provider")
  {
  }

  lemma {:induction false} WindowPlain()
    ensures PlainName("model_context_window")
  {
  }

  lemma {:induction false} TokensPlain()
    ensures PlainName("model_max_output_tokens")
  {
  }

  lemma {:induction false} TuningPlain()
    ensures PlainName("model_context_window") && PlainName("model_max_output_tokens")
  {
    WindowPlain();
    TokensPlain();
  }

  lemma {:induction false} ManagedIsSet(line: string)
    ensures ManagedLine(line) <==> OwnName(NameOf(line))
  {
    NamesPlain();
    TuningPlain();
    AssignsIsSetting(line, "model");
    AssignsIsSetting(line, "model_provider");
    AssignsIsSetting(line, "model_context_window");
    AssignsIsSetting(line, "model_max_output_tokens");
  }

  // ---- entries of parts ------------------------------------------------------------------

  predicate NoneOpens(lines: seq<string>) {
    forall i :: 0 <= i < |lines| ==> !Opens(lines[i])
  }

  lemma {:induction false} RootSection(lines: seq<string>)
    requires NoneOpens(lines)
    ensures SectionOf(lines) == ""
    ensures forall i :: 0 <= i < |Entries(lines)| ==> Entries(lines)[i].section == ""
  {
    if lines != [] { RootSection(lines[..|lines| - 1]); }
  }

  /** Lines that go on above all tables, or start with a header of their own. */
  predicate Fresh(a: seq<string>, b: seq<string>) {
    NoneOpens(a) || (b != [] ==> Opens(b[0]))
  }

  lemma {:induction false} SectionAppend(a: seq<string>, b: seq<string>)
    requires Fresh(a, b) && b != []
    ensures SectionOf(a + b) == SectionOf(b)
  {
    var all := a + b;
    assert all[|all| - 1] == b[|b| - 1] && all[..|all| - 1] == a + b[..|b| - 1];
    if !Opens(b[|b| - 1]) {
      if |b| == 1 {
        assert a + b[..0] == a;
        RootSection(a);
      } else {
        SectionAppend(a, b[..|b| - 1]);
      }
    }
  }

  lemma {:induction false} EntriesAppend(a: seq<string>, b: seq<string>)
    requires Fresh(a, b)
    ensures Entries(a + b) == Entries(a) + Entries(b)
  {
    if b == [] {
      assert a + b == a;
    } else {
      assert (a + b)[..|a + b| - 1] == a + b[..|b| - 1];
      EntriesAppend(a, b[..|b| - 1]);
      SectionAppend(a, b);
    }
  }

  lemma {:induction false} BlankOpensNot(line: string)
    requires IsBlank(line)
    ensures !Opens(line)
  {
  }

  lemma {:induction false} NonBlankSnoc(lines: seq<string>, l: string)
    ensures NonBlank(lines + [l]) == NonBlank(lines) + if IsBlank(l) then [] else [l]
  {
    NonBlankAppend(lines, [l]);
    assert [l][1..] == [];
  }

  /** Blank lines are no entries and open no table. */
  lemma {:induction false} EntriesSolid(lines: seq<string>)
    ensures Entries(NonBlank(lines)) == Entries(lines)
    ensures SectionOf(NonBlank(lines)) == SectionOf(lines)
  {
    if lines != [] {
      var init, l := lines[..|lines| - 1], lines[|lines| - 1];
      assert lines == init + [l];
      EntriesSolid(init);
      NonBlankSnoc(init, l);
      if IsBlank(l) {
        BlankOpensNot(l);
        EmptyEnds(NonBlank(init));
      } else {
        assert (NonBlank(init) + [l])[..|NonBlank(init)|] == NonBlank(init);
      }
    }
  }

  lemma {:induction false} ForeignAppend(a: seq<Entry>, b: seq<Entry>, key: string)
    ensures Foreign(a + b, key) == Foreign(a, key) + Foreign(b, key)
  {
    if b == [] {
      assert a + b == a;
    } else {
      assert (a + b)[..|a + b| - 1] == a + b[..|b| - 1];
      ForeignAppend(a, b[..|b| - 1], key);
    }
  }

  lemma {:induction false} ForeignOne(e: Entry, key: string)
    ensures Foreign([e], key) == if OfProgram(e, key) then [] else [e]
  {
    assert [e][..0] == [];
  }

  lemma {:induction false} ForeignSnoc(entries: seq<Entry>, e: Entry, key: string)
    ensures Foreign(entries + [e], key) == Foreign(entries, key) + if OfProgram(e, key) then [] else [e]
  {
    ForeignAppend(entries, [e], key);
    ForeignOne(e, key);
  }

  /** One line more of a file's lines, and of those kept of it. */
  lemma {:induction false} EntriesSnoc(lines: seq<string>, l: string)
    ensures Entries(lines + [l])
         == Entries(lines) + if IsBlank(l) then [] else [Entry(if Opens(l) then Tight(l) else SectionOf(lines), l)]
    ensures SectionOf(lines + [l]) == if Opens(l) then Tight(l) else SectionOf(lines)
  {
    assert (lines + [l])[..|lines|] == lines;
  }

  /** Both grow alike by a line that is kept, and neither counts for one that is not. */
  lemma {:induction false} LineKept(lines: seq<string>, kept: seq<string>, l: string, key: string)
    requires Entries(kept) == Foreign(Entries(lines), key)
    requires Opens(l) || SectionOf(kept) == SectionOf(lines)
    requires !OfProgram(Entry(if Opens(l) then Tight(l) else SectionOf(lines), l), key)
    ensures Entries(kept + [l]) == Foreign(Entries(lines + [l]), key)
  {
    var e := Entry(if Opens(l) then Tight(l) else SectionOf(lines), l);
    EntriesSnoc(lines, l);
    EntriesSnoc(kept, l);
    ForeignSnoc(Entries(lines), e, key);
    EmptyEnds(Entries(lines));
    EmptyEnds(Entries(kept));
  }

  lemma {:induction false} LineDropped(lines: seq<string>, kept: seq<string>, l: string, key: string)
    requires Entries(kept) == Foreign(Entries(lines), key)
    requires OfProgram(Entry(if Opens(l) then Tight(l) else SectionOf(lines), l), key)
    ensures Entries(kept + []) == Foreign(Entries(lines + [l]), key)
  {
    var e := Entry(if Opens(l) then Tight(l) else SectionOf(lines), l);
    EntriesSnoc(lines, l);
    ForeignSnoc(Entries(lines), e, key);
    EmptyEnds(Entries(lines));
    EmptyEnds(Foreign(Entries(lines), key));
    EmptyEnds(kept);
  }

  lemma {:induction false} RootEntry(l: string, key: string)
    ensures OfProgram(Entry("", l), key) <==> ManagedLine(l)
  {
    ManagedIsSet(l);
  }

  /** Above the tables, what is kept is what is not one of the four settings. */
  lemma {:induction false} RootForeign(root: seq<string>, key: string)
    requires NoneOpens(root)
    ensures Entries(Unmanaged(root)) == Foreign(Entries(root), key)
    ensures NoneOpens(Unmanaged(root))
  {
    if root != [] {
      var init, l := root[..|root| - 1], root[|root| - 1];
      assert root == init + [l];
      RootForeign(init, key);
      RootSection(init);
      RootSection(Unmanaged(init));
      RootEntry(l, key);
      if ManagedLine(l) {
        LineDropped(init, Unmanaged(init), l, key);
      } else {
        LineKept(init, Unmanaged(init), l, key);
      }
    }
  }

  /** Below the first header, a line's table is that of the nearest header. */
  lemma {:induction false} NearestSection(lines: seq<string>, n: nat)
    requires 0 < n <= |lines| && Opens(lines[0])
    ensures NearestHeader(lines, n - 1) >= 0
    ensures SectionOf(lines[..n]) == Tight(lines[NearestHeader(lines, n - 1)])
  {
    HeaderOpens(lines[n - 1]);
    if !Opens(lines[n - 1]) {
      NearestSection(lines, n - 1);
      assert lines[..n][..n - 1] == lines[..n - 1];
    }
  }

  lemma {:induction false} OwnIsProgram(lines: seq<string>, n: nat, key: string)
    requires 0 < n <= |lines| && Opens(lines[0])
    ensures InOwnTable(lines, key, n - 1)
       <==> OfProgram(Entry(SectionOf(lines[..n]), lines[n - 1]), key)
  {
    NearestSection(lines, n);
    var h := lines[NearestHeader(lines, n - 1)];
    HeaderOpens(h);
    TightSqueezed(h);
    TightOpens(h);
  }

  lemma {:induction false} TightOpens(line: string)
    requires Opens(line)
    ensures Tight(line) != ""
  {
    var i :| 0 <= i < |line| && line[i] == '[' && IsBlank(line[..i]);
    TightHas(line, i);
  }

  lemma {:induction false} TightHas(line: string, i: nat)
    requires i < |line| && !IsSpace(line[i])
    ensures Tight(line) != ""
  {
    if i < |line| - 1 { TightHas(line[..|line| - 1], i); }
  }

  lemma {:induction false} SameTable(lines: seq<string>, key: string, n: nat)
    requires 1 < n <= |lines| && !IsHeader(lines[n - 1])
    ensures InOwnTable(lines, key, n - 1) == InOwnTable(lines, key, n - 2)
  {
  }

  /** In the tables, what is kept is what is not in the program's own. */
  lemma {:induction false} TablesForeign(lines: seq<string>, key: string, n: nat)
    requires n <= |lines| && (lines != [] ==> Opens(lines[0]))
    ensures Entries(OutsideOwn(lines, key, n)) == Foreign(Entries(lines[..n]), key)
    ensures n > 0 && !InOwnTable(lines, key, n - 1) ==> SectionOf(OutsideOwn(lines, key, n)) == SectionOf(lines[..n])
  {
    if n > 0 {
      var l, kept, init := lines[n - 1], OutsideOwn(lines, key, n - 1), lines[..n - 1];
      TablesForeign(lines, key, n - 1);
      assert lines[..n] == init + [l];
      EntriesSnoc(init, l);
      EntriesSnoc(kept, l);
      OwnIsProgram(lines, n, key);
      HeaderOpens(l);
      if InOwnTable(lines, key, n - 1) {
        LineDropped(init, kept, l, key);
      } else {
        if !Opens(l) { SameTable(lines, key, n); }
        LineKept(init, kept, l, key);
      }
    }
  }

  // ---- the merged file -------------------------------------------------------------------

  lemma {:induction false} RootOpensNot(lines: seq<string>)
    ensures NoneOpens(lines[..FirstHeader(lines)])
    ensures lines[FirstHeader(lines)..] != [] ==> Opens(lines[FirstHeader(lines)..][0])
  {
    var n := FirstHeader(lines);
    forall i | 0 <= i < n ensures !Opens(lines[..n][i]) { HeaderOpens(lines[i]); }
    if n < |lines| { HeaderOpens(lines[n]); }
  }

  lemma {:induction false} KeptEntries(lines: seq<string>, key: string)
    ensures var n := FirstHeader(lines);
      Entries(Unmanaged(lines[..n])) + Entries(RemoveProviderTable(lines[n..], key)) == Foreign(Entries(lines), key)
  {
    var n := FirstHeader(lines);
    RootOpensNot(lines);
    assert lines[..n] + lines[n..] == lines;
    KeptInParts(lines[..n], lines[n..], key);
  }

  lemma {:induction false} KeptInParts(root: seq<string>, tables: seq<string>, key: string)
    requires NoneOpens(root) && (tables != [] ==> Opens(tables[0]))
    ensures Entries(Unmanaged(root)) + Entries(RemoveProviderTable(tables, key)) == Foreign(Entries(root + tables), key)
  {
    RootForeign(root, key);
    TablesForeign(tables, key, |tables|);
    assert tables[..|tables|] == tables;
    EntriesAppend(root, tables);
    ForeignAppend(Entries(root), Entries(tables), key);
  }

  lemma {:induction false} NonBlankNoneOpens(lines: seq<string>)
    requires NoneOpens(lines)
    ensures NoneOpens(NonBlank(lines))
  {
    if lines != [] {
      assert NoneOpens(lines[1..]);
      NonBlankNoneOpens(lines[1..]);
    }
  }

  lemma {:induction false} NonBlankHead(lines: seq<string>)
    requires lines != [] ==> Opens(lines[0])
    ensures var solid := NonBlank(lines); solid != [] ==> Opens(solid[0])
  {
    if lines != [] {
      if IsBlank(lines[0]) { BlankOpensNot(lines[0]); }
      assert NonBlank(lines)[0] == lines[0];
    }
  }

  lemma {:induction false} FourEntries(a: seq<string>, b: seq<string>, c: seq<string>, d: seq<string>)
    requires NoneOpens(a) && NoneOpens(b) && (c != [] ==> Opens(c[0])) && d != [] && Opens(d[0])
    ensures Entries(a + b + c + d) == Entries(a) + Entries(b) + Entries(c) + Entries(d)
  {
    EntriesAppend(a, b);
    assert NoneOpens(a + b);
    EntriesAppend(a + b, c);
    EntriesAppend(a + b + c, d);
  }

  lemma {:induction false} OutsideOpens(lines: seq<string>, key: string)
    requires lines != [] ==> Opens(lines[0])
    ensures var out := RemoveProviderTable(lines, key); out != [] ==> Opens(out[0])
  {
    if lines != [] { HeaderOpens(lines[0]); }
    OutsideOwnKeep(lines, key);
    var out := RemoveProviderTable(lines, key);
    if out != [] { HeaderOpens(out[0]); }
  }

  lemma {:induction false} OursOpenNot(p: Patch)
    requires SingleTable(p)
    ensures NoneOpens(ManagedBlock(p)) && BlockLines(p) != [] && Opens(BlockLines(p)[0])
  {
    ManagedLines(p);
    forall i | 0 <= i < |ManagedBlock(p)| ensures !Opens(ManagedBlock(p)[i]) {
      assert ManagedBlock(p)[i] in ManagedBlock(p);
      HeaderOpens(ManagedBlock(p)[i]);
    }
    HeaderOpens(BlockLines(p)[0]);
  }

  /** A merged file reads as the program's settings, everything of the user's in its own order and
      table, and the program's table; nothing else. */
  lemma {:induction false} MergeReads(existing: Option<string>, p: Patch)
    requires SingleTable(p)
    ensures Entries(Split(Merge(existing, p)))
         == Entries(ManagedBlock(p)) + OfUser(existing, p.providerKey) + Entries(BlockLines(p))
  {
    OursOpenNot(p);
    if existing.None? || IsBlank(existing.value) {
      NothingReads(existing, p);
    } else {
      TextReads(existing.value, p);
    }
  }

  lemma {:induction false} TextReads(text: string, p: Patch)
    requires SingleTable(p) && !IsBlank(text)
    ensures Entries(Split(Merge(Some(text), p)))
         == Entries(ManagedBlock(p)) + OfUser(Some(text), p.providerKey) + Entries(BlockLines(p))
  {
    var lines, key := Split(DropCr(text)), p.providerKey;
    var root, tables := Unmanaged(lines[..FirstHeader(lines)]), RemoveProviderTable(lines[FirstHeader(lines)..], key);
    OursOpenNot(p);
    RootOpensNot(lines);
    RootForeign(lines[..FirstHeader(lines)], key);
    OutsideOpens(lines[FirstHeader(lines)..], key);
    NonBlankNoneOpens(root);
    NonBlankHead(tables);
    MergePreserves(text, p);
    EntriesSolid(Split(Merge(Some(text), p)));
    FourEntries(ManagedBlock(p), NonBlank(root), NonBlank(tables), BlockLines(p));
    EntriesSolid(root);
    EntriesSolid(tables);
    KeptEntries(lines, key);
    Regroup(Entries(ManagedBlock(p)), Entries(root), Entries(tables));
  }

  lemma {:induction false} BlankReads(lines: seq<string>)
    requires forall i :: 0 <= i < |lines| ==> IsBlank(lines[i])
    ensures Entries(lines) == []
  {
    if lines != [] { BlankReads(lines[..|lines| - 1]); }
  }

  lemma {:induction false} BlankSplit(text: string)
    requires IsBlank(text)
    ensures forall i :: 0 <= i < |Split(DropCr(text))| ==> IsBlank(Split(DropCr(text))[i])
  {
    if text != "" {
      assert forall i :: 0 <= i < |text| - 1 ==> text[1..][i] == text[i + 1];
      if |text| >= 2 && text[0] == '\r' && text[1] == '\n' {
        assert forall i :: 0 <= i < |text| - 2 ==> text[2..][i] == text[i + 2];
        BlankSplit(text[2..]);
        assert ("\n" + DropCr(text[2..]))[1..] == DropCr(text[2..]);
      } else {
        BlankSplit(text[1..]);
        assert ([text[0]] + DropCr(text[1..]))[1..] == DropCr(text[1..]);
        assert IsBlank(Split(DropCr(text[1..]))[0]);
      }
    }
  }

  lemma {:induction false} SettingsAndTable(m: seq<string>, b: seq<string>)
    requires NoneOpens(m)
    ensures Entries(m + [""] + b + [""]) == Entries(m) + Entries(b)
  {
    BlankEnd(m + [""] + b);
    BlankEnd(m);
    assert NoneOpens(m + [""]);
    EntriesAppend(m + [""], b);
  }

  lemma {:induction false} NothingOfUser(existing: Option<string>, key: string)
    requires existing.None? || IsBlank(existing.value)
    ensures OfUser(existing, key) == []
  {
    if existing.Some? {
      BlankSplit(existing.value);
      BlankReads(Split(DropCr(existing.value)));
    }
  }

  lemma {:induction false} NothingReads(existing: Option<string>, p: Patch)
    requires SingleTable(p) && (existing.None? || IsBlank(existing.value))
    ensures Entries(Split(Merge(existing, p)))
         == Entries(ManagedBlock(p)) + OfUser(existing, p.providerKey) + Entries(BlockLines(p))
  {
    var m, b := ManagedBlock(p), BlockLines(p);
    OursOpenNot(p);
    MergedLines(existing, p);
    assert Thinned([], false) == [];
    assert Laid(m, [], [], b) == m + [""] + b;
    SettingsAndTable(m, b);
    NothingOfUser(existing, p.providerKey);
    EmptyEnds(Entries(m));
  }

  lemma {:induction false} BlankEnd(lines: seq<string>)
    ensures Entries(lines + [""]) == Entries(lines)
  {
    assert (lines + [""])[..|lines|] == lines;
    EmptyEnds(Entries(lines));
  }

  // ---- the settings ----------------------------------------------------------------------

  /** The digits of a number, read. */
  function NumberOf(digits: string): int {
    if digits == "" then 0
    else NumberOf(digits[..|digits| - 1]) * 10 + (digits[|digits| - 1] as int - '0' as int)
  }

  lemma {:induction false} DecimalReads(n: nat)
    ensures NumberOf(Decimal(n)) == n
    ensures Decimal(n) != "" && forall c :: c in Decimal(n) ==> '0' <= c <= '9'
  {
    if n >= 10 {
      DecimalReads(n / 10);
      assert Decimal(n)[..|Decimal(n)| - 1] == Decimal(n / 10);
    } else {
      assert Decimal(n)[..0] == "" && NumberOf("") == 0;
    }
  }

  /** Neither end is white space. */
  predicate Tidy(value: string) {
    value != "" && !IsSpace(value[0]) && !IsSpace(value[|value| - 1])
  }

  lemma {:induction false} SettingNamed(key: string, value: string)
    requires PlainName(key)
    ensures NameOf((key + " ") + "=" + (" " + value)) == Some(key)
  {
    assert "" + key + " " == key + " ";
    NameOfParts("", key, " ", " " + value);
  }

  lemma {:induction false} SettingValued(key: string, value: string)
    requires PlainName(key)
    ensures ValueOf((key + " ") + "=" + (" " + value)) == Trim(" " + value)
  {
    CutAt(key + " ", " " + value);
    assert ((key + " ") + "=" + (" " + value))[|key| + 2..] == " " + value;
  }

  lemma {:induction false} SpaceTrimmed(value: string)
    requires Tidy(value)
    ensures Trim(" " + value) == value
  {
    TrimStartPast(" ", value);
  }

  lemma {:induction false} SettingSplit(key: string, value: string)
    ensures Setting(key, value) == (key + " ") + "=" + (" " + value)
  {
  }

  lemma {:induction false} StartsSolid(line: string)
    requires line != "" && !IsSpace(line[0]) && line[0] != '['
    ensures !IsBlank(line) && !Opens(line)
  {
  }

  lemma {:induction false} SettingReads(key: string, value: string)
    requires PlainName(key) && key[0] != '[' && Tidy(value)
    ensures NameOf(Setting(key, value)) == Some(key) && ValueOf(Setting(key, value)) == value
    ensures !IsBlank(Setting(key, value)) && !Opens(Setting(key, value))
  {
    SettingSplit(key, value);
    SettingNamed(key, value);
    SettingValued(key, value);
    SpaceTrimmed(value);
    assert Setting(key, value)[0] == key[0];
    StartsSolid(Setting(key, value));
  }

  lemma {:induction false} OneSetting(key: string, value: string)
    requires PlainName(key) && key[0] != '[' && Tidy(value)
    ensures Entries([Setting(key, value)]) == [Entry("", Setting(key, value))]
    ensures NameOf(Setting(key, value)) == Some(key) && ValueOf(Setting(key, value)) == value
  {
    SettingReads(key, value);
    assert [Setting(key, value)][..0] == [];
    assert SectionOf([Setting(key, value)]) == "";
  }

  /** Exactly these names are set above the tables, in this order, to these values. */
  predicate Lists(entries: seq<Entry>, names: seq<string>, values: seq<string>) {
    && |entries| == |names| == |values|
    && forall i :: 0 <= i < |entries| ==> SetsRoot(entries[i], names[i]) && ValueOf(entries[i].line) == values[i]
  }

  lemma {:induction false} ListsMore(lines: seq<string>, names: seq<string>, values: seq<string>, key: string,
                                     value: string)
    requires NoneOpens(lines) && Lists(Entries(lines), names, values)
    requires PlainName(key) && key[0] != '[' && Tidy(value)
    ensures NoneOpens(lines + [Setting(key, value)])
    ensures Lists(Entries(lines + [Setting(key, value)]), names + [key], values + [value])
  {
    OneSetting(key, value);
    SettingReads(key, value);
    EntriesAppend(lines, [Setting(key, value)]);
  }

  function Given(key: string, value: Option<nat>): seq<string> {
    if value.Some? then [key] else []
  }

  function Digits(value: Option<nat>): seq<string> {
    if value.Some? then [Decimal(value.value)] else []
  }

  lemma {:induction false} ListsTuning(lines: seq<string>, names: seq<string>, values: seq<string>, key: string,
                                       value: Option<nat>)
    requires NoneOpens(lines) && Lists(Entries(lines), names, values) && PlainName(key) && key[0] != '['
    ensures NoneOpens(lines + Tuning(key, value))
    ensures Lists(Entries(lines + Tuning(key, value)), names + Given(key, value), values + Digits(value))
  {
    EmptyEnds(lines);
    EmptyEnds(names);
    EmptyEnds(values);
    if value.Some? {
      DecimalReads(value.value);
      var d := Decimal(value.value);
      assert d[0] in d && d[|d| - 1] in d;
      ListsMore(lines, names, values, key, d);
    }
  }

  /** Two settings always given, and two that need not be. */
  datatype Four = Four(k1: string, v1: string, k2: string, v2: string, k3: string, n3: Option<nat>,
                       k4: string, n4: Option<nat>)
  {
    function Lines(): seq<string> {
      [Setting(k1, v1), Setting(k2, v2)] + Tuning(k3, n3) + Tuning(k4, n4)
    }

    function Names(): seq<string> {
      [k1, k2] + Given(k3, n3) + Given(k4, n4)
    }

    function Values(): seq<string> {
      [v1, v2] + Digits(n3) + Digits(n4)
    }

    predicate Good() {
      && PlainName(k1) && PlainName(k2) && PlainName(k3) && PlainName(k4)
      && k1[0] != '[' && k2[0] != '[' && k3[0] != '[' && k4[0] != '[' && Tidy(v1) && Tidy(v2)
      && k1 != k2 && k1 != k3 && k1 != k4 && k2 != k3 && k2 != k4 && k3 != k4
    }
  }

  lemma {:induction false} OneList(k: string, v: string)
    requires PlainName(k) && k[0] != '[' && Tidy(v)
    ensures NoneOpens([Setting(k, v)]) && Lists(Entries([Setting(k, v)]), [k], [v])
  {
    OneSetting(k, v);
    SettingReads(k, v);
  }

  lemma {:induction false} TwoList(k: string, v: string, l: string, w: string)
    requires PlainName(k) && PlainName(l) && k[0] != '[' && l[0] != '[' && Tidy(v) && Tidy(w)
    ensures NoneOpens([Setting(k, v), Setting(l, w)]) && Lists(Entries([Setting(k, v), Setting(l, w)]), [k, l], [v, w])
  {
    OneList(k, v);
    ListsMore([Setting(k, v)], [k], [v], l, w);
    assert [Setting(k, v)] + [Setting(l, w)] == [Setting(k, v), Setting(l, w)];
    assert [k] + [l] == [k, l] && [v] + [w] == [v, w];
  }

  lemma {:induction false} FourList(f: Four)
    requires f.Good()
    ensures Lists(Entries(f.Lines()), f.Names(), f.Values())
  {
    var two := [Setting(f.k1, f.v1), Setting(f.k2, f.v2)];
    TwoList(f.k1, f.v1, f.k2, f.v2);
    ListsTuning(two, [f.k1, f.k2], [f.v1, f.v2], f.k3, f.n3);
    ListsTuning(two + Tuning(f.k3, f.n3), [f.k1, f.k2] + Given(f.k3, f.n3), [f.v1, f.v2] + Digits(f.n3), f.k4, f.n4);
  }

  /** What the program sets, as the patch has it. */
  function FourOf(p: Patch): Four {
    Four("model", "\"" + p.model + "\"", "model_provider", "\"" + p.modelProvider + "\"",
         "model_context_window", p.contextWindow, "model_max_output_tokens", p.maxOutputTokens)
  }

  lemma {:induction false} NamesDiffer()
    ensures |"model"| == 5 && |"model_provider"| == 14 && |"model_context_window"| == 20
    ensures |"model_max_output_tokens"| == 23
  {
  }

  lemma {:induction false} QuotesTidy(s: string)
    ensures Tidy("\"" + s + "\"")
  {
  }

  lemma {:induction false} FourGood(p: Patch)
    ensures FourOf(p).Good()
  {
    NamesPlain();
    TuningPlain();
    NamesDiffer();
    QuotesTidy(p.model);
    QuotesTidy(p.modelProvider);
    var f := FourOf(p);
    assert |f.k1| == 5 && |f.k2| == 14 && |f.k3| == 20 && |f.k4| == 23;
    assert f.k1[0] == 'm' && f.k2[0] == 'm' && f.k3[0] == 'm' && f.k4[0] == 'm';
  }

  lemma {:induction false} FourManaged(p: Patch)
    ensures FourOf(p).Lines() == ManagedBlock(p)
  {
  }

  lemma {:induction false} ForeignMembers(entries: seq<Entry>, key: string)
    ensures forall e :: e in Foreign(entries, key) ==> !OfProgram(e, key)
  {
    if entries != [] { ForeignMembers(entries[..|entries| - 1], key); }
  }

  lemma {:induction false} BlockSections(block: seq<string>)
    requires block != [] && Opens(block[0])
    ensures SectionOf(block) != "" && forall e :: e in Entries(block) ==> e.section != ""
  {
    TightOpens(block[0]);
    if |block| > 1 {
      BlockSections(block[..|block| - 1]);
      if Opens(block[|block| - 1]) { TightOpens(block[|block| - 1]); }
    } else {
      assert block[..0] == [];
    }
  }

  /** A name among the first entries, set by none of the others. */
  lemma {:induction false} SetAmong(own: seq<Entry>, rest: seq<Entry>, names: seq<string>, values: seq<string>, i: nat)
    requires Lists(own, names, values) && i < |names|
    requires Once(names)
    requires forall e :: e in rest ==> !SetsRoot(e, names[i])
    ensures SetOnce(own + rest, names[i], values[i])
  {
    assert SetAt(own + rest, names[i], values[i], i);
  }

  lemma {:induction false} SetByNone(own: seq<Entry>, rest: seq<Entry>, names: seq<string>, values: seq<string>,
                                     name: string)
    requires Lists(own, names, values) && name !in names
    requires forall e :: e in rest ==> !SetsRoot(e, name)
    ensures SetNever(own + rest, name)
  {
  }

  predicate UnsetIn(f: Four, rest: seq<Entry>) {
    forall e :: e in rest ==>
      !SetsRoot(e, f.k1) && !SetsRoot(e, f.k2) && !SetsRoot(e, f.k3) && !SetsRoot(e, f.k4)
  }

  predicate Once(names: seq<string>) {
    forall i, j :: 0 <= i < j < |names| ==> names[i] != names[j]
  }

  lemma {:induction false} NamesOnce(f: Four)
    requires f.Good()
    ensures Once(f.Names())
  {
  }

  lemma {:induction false} TwoSet(f: Four, own: seq<Entry>, rest: seq<Entry>)
    requires f.Good() && Lists(own, f.Names(), f.Values()) && UnsetIn(f, rest)
    ensures SetOnce(own + rest, f.k1, f.v1) && SetOnce(own + rest, f.k2, f.v2)
  {
    var names, values := f.Names(), f.Values();
    NamesOnce(f);
    assert names[0] == f.k1 && values[0] == f.v1 && names[1] == f.k2 && values[1] == f.v2;
    SetAmong(own, rest, names, values, 0);
    SetAmong(own, rest, names, values, 1);
  }

  lemma {:induction false} WindowSet(f: Four, own: seq<Entry>, rest: seq<Entry>)
    requires f.Good() && Lists(own, f.Names(), f.Values()) && UnsetIn(f, rest)
    ensures SetIf(own + rest, f.k3, f.n3)
  {
    var names, values := f.Names(), f.Values();
    NamesOnce(f);
    if f.n3.Some? {
      assert names[2] == f.k3 && values[2] == Decimal(f.n3.value);
      SetAmong(own, rest, names, values, 2);
    } else {
      SetByNone(own, rest, names, values, f.k3);
    }
  }

  lemma {:induction false} TokensSet(f: Four, own: seq<Entry>, rest: seq<Entry>)
    requires f.Good() && Lists(own, f.Names(), f.Values()) && UnsetIn(f, rest)
    ensures SetIf(own + rest, f.k4, f.n4)
  {
    var names, values := f.Names(), f.Values();
    NamesOnce(f);
    if f.n4.Some? {
      var last := |names| - 1;
      assert names[last] == f.k4 && values[last] == Decimal(f.n4.value);
      SetAmong(own, rest, names, values, last);
    } else {
      SetByNone(own, rest, names, values, f.k4);
    }
  }

  /** After a merge the four settings are, above all tables, what the patch says: the model and the
      provider once each, in quotes, and the two numbers once each or not at all. */
  lemma {:induction false} MergeSets(existing: Option<string>, p: Patch)
    requires SingleTable(p)
    ensures var entries := Entries(Split(Merge(existing, p)));
      && SetOnce(entries, "model", "\"" + p.model + "\"")
      && SetOnce(entries, "model_provider", "\"" + p.modelProvider + "\"")
      && SetIf(entries, "model_context_window", p.contextWindow)
      && SetIf(entries, "model_max_output_tokens", p.maxOutputTokens)
  {
    var own := Entries(ManagedBlock(p));
    var rest := OfUser(existing, p.providerKey) + Entries(BlockLines(p));
    MergeReads(existing, p);
    Regroup(own, OfUser(existing, p.providerKey), Entries(BlockLines(p)));
    FourGood(p);
    FourManaged(p);
    FourList(FourOf(p));
    RestSetsNone(existing, p);
    TwoSet(FourOf(p), own, rest);
    WindowSet(FourOf(p), own, rest);
    TokensSet(FourOf(p), own, rest);
  }

  lemma {:induction false} RestSetsNone(existing: Option<string>, p: Patch)
    requires SingleTable(p)
    ensures UnsetIn(FourOf(p), OfUser(existing, p.providerKey) + Entries(BlockLines(p)))
  {
    OursOpenNot(p);
    BlockSections(BlockLines(p));
    if existing.Some? { ForeignMembers(Entries(Split(DropCr(existing.value))), p.providerKey); }
  }

  // ---- the table the program builds ------------------------------------------------------

  /** An entry of a table that sets this name to this value. */
  predicate SetsIn(e: Entry, section: string, name: string, value: string) {
    e.section == section && NameOf(e.line) == Some(name) && ValueOf(e.line) == value
  }

  predicate Solid(s: string) {
    forall i :: 0 <= i < |s| ==> !IsSpace(s[i])
  }

  lemma {:induction false} TightWhole(s: string)
    requires Solid(s)
    ensures Tight(s) == s
  {
    if s != "" {
      TightWhole(s[..|s| - 1]);
      assert s == s[..|s| - 1] + [s[|s| - 1]];
    }
  }

  lemma {:induction false} SectionHeads(key: string)
    requires Solid(key)
    ensures Heads("[model_providers." + key + "]")
  {
    var h := "[model_providers." + key + "]";
    SolidAround("[model_providers.", key, "]");
    TightWhole(h);
    assert h[0] == '[' && h[..0] == "";
  }

  lemma {:induction false} SolidAround(a: string, key: string, b: string)
    requires Solid(a) && Solid(key) && Solid(b)
    ensures Solid(a + key + b)
  {
  }

  /** A header, and settings under it. */
  function LinesOf(h: string, sets: seq<(string, string)>): seq<string> {
    if sets == [] then [h]
    else LinesOf(h, sets[..|sets| - 1]) + [Setting(sets[|sets| - 1].0, sets[|sets| - 1].1)]
  }

  predicate GoodSet(pair: (string, string)) {
    PlainName(pair.0) && pair.0[0] != '[' && Tidy(pair.1)
  }

  predicate GoodSets(sets: seq<(string, string)>) {
    forall i :: 0 <= i < |sets| ==> GoodSet(sets[i])
  }

  predicate Heads(h: string) {
    Opens(h) && Tight(h) == h && !IsBlank(h)
  }

  lemma {:induction false} LinesAt(h: string, sets: seq<(string, string)>)
    ensures |LinesOf(h, sets)| == 1 + |sets| && LinesOf(h, sets)[0] == h
    ensures forall i :: 0 < i <= |sets| ==> LinesOf(h, sets)[i] == Setting(sets[i - 1].0, sets[i - 1].1)
  {
    if sets != [] { LinesAt(h, sets[..|sets| - 1]); }
  }

  /** A table as a reader finds it: its header, and each setting in it. */
  predicate TableIs(entries: seq<Entry>, h: string, sets: seq<(string, string)>) {
    && |entries| == 1 + |sets| && entries[0] == Entry(h, h)
    && forall i :: 0 <= i < |sets| ==> SetsIn(entries[i + 1], h, sets[i].0, sets[i].1)
  }

  lemma {:induction false} TableGrows(entries: seq<Entry>, h: string, sets: seq<(string, string)>, e: Entry,
                                      last: (string, string))
    requires TableIs(entries, h, sets) && SetsIn(e, h, last.0, last.1)
    ensures TableIs(entries + [e], h, sets + [last])
  {
    var more, all := entries + [e], sets + [last];
    forall i | 0 <= i < |all| ensures SetsIn(more[i + 1], h, all[i].0, all[i].1) {
      if i < |sets| { assert more[i + 1] == entries[i + 1] && all[i] == sets[i]; }
    }
  }

  /** Settings that follow a header are in its table. */
  lemma {:induction false} TableSets(h: string, sets: seq<(string, string)>)
    requires Heads(h) && GoodSets(sets)
    ensures TableIs(Entries(LinesOf(h, sets)), h, sets) && SectionOf(LinesOf(h, sets)) == h
  {
    if sets == [] {
      assert [h] == [] + [h];
      EntriesSnoc([], h);
    } else {
      var init, last := sets[..|sets| - 1], sets[|sets| - 1];
      assert GoodSet(last) && sets == init + [last];
      TableSets(h, init);
      var l := Setting(last.0, last.1);
      EntriesSnoc(LinesOf(h, init), l);
      SettingReads(last.0, last.1);
      TableGrows(Entries(LinesOf(h, init)), h, init, Entry(h, l), last);
    }
  }

  lemma {:induction false} BuiltSettings(title: string, host: string, port: nat)
    ensures Named(title) == Setting("name", "\"" + title + "\"")
    ensures BaseUrl(host, port) == Setting("base_url", "\"http://" + host + ":" + Decimal(port) + "/v1\"")
    ensures "wire_api = \"responses\"" == Setting("wire_api", "\"responses\"")
  {
  }

  lemma {:induction false} FixedSettings()
    ensures "requires_openai_auth = true" == Setting("requires_openai_auth", "true")
    ensures "request_max_retries = 1" == Setting("request_max_retries", "1")
  {
  }

  lemma {:induction false} BuiltNames()
    ensures PlainName("name") && PlainName("base_url") && PlainName("wire_api")
  {
  }

  lemma {:induction false} RequiresPlain()
    ensures PlainName("requires_openai_auth")
  {
  }

  lemma {:induction false} RetriesPlain()
    ensures PlainName("request_max_retries")
  {
  }

  /** What the program's table sets: where the proxy listens, and how to talk to it. */
  function TableOf(title: string, host: string, port: nat): seq<(string, string)> {
    [("name", "\"" + title + "\""), ("base_url", "\"http://" + host + ":" + Decimal(port) + "/v1\""),
     ("wire_api", "\"responses\""), ("requires_openai_auth", "true"), ("request_max_retries", "1")]
  }

  lemma {:induction false} TableGood(title: string, host: string, port: nat)
    ensures GoodSets(TableOf(title, host, port))
  {
    BuiltNames();
    RequiresPlain();
    RetriesPlain();
    QuotesTidy(title);
    QuotesTidy("responses");
    UrlTidy(host, port);
    var sets := TableOf(title, host, port);
    assert GoodSet(sets[0]) && GoodSet(sets[1]) && GoodSet(sets[2]) && GoodSet(sets[3]) && GoodSet(sets[4]);
  }

  lemma {:induction false} UrlTidy(host: string, port: nat)
    ensures Tidy("\"http://" + host + ":" + Decimal(port) + "/v1\"")
  {
  }

  lemma {:induction false} TableLines(key: string, title: string, host: string, port: nat)
    ensures ProviderLines(key, title, host, port)
         == LinesOf("[model_providers." + key + "]", TableOf(title, host, port))
  {
    var h, sets := "[model_providers." + key + "]", TableOf(title, host, port);
    LinesAt(h, sets);
    BuiltSettings(title, host, port);
    FixedSettings();
    var a, b := ProviderLines(key, title, host, port), LinesOf(h, sets);
    forall i | 0 < i < 6 ensures a[i] == b[i] {
      assert b[i] == Setting(sets[i - 1].0, sets[i - 1].1);
    }
  }

  /** The table the program builds reads as its header and these five settings, and nothing else. */
  lemma {:induction false} BuiltReads(p: Patch, title: string, host: string, port: nat)
    requires OneLine(title) && OneLine(host) && Solid(p.providerKey)
    requires p.providerBlock == ProviderTableBlock(p.providerKey, title, host, port)
    ensures var entries, table, sets :=
        Entries(BlockLines(p)), "[model_providers." + p.providerKey + "]", TableOf(title, host, port);
      TableIs(entries, table, sets)
  {
    BuiltLines(p, title, host, port);
    TableLines(p.providerKey, title, host, port);
    SectionHeads(p.providerKey);
    TableGood(title, host, port);
    TableSets("[model_providers." + p.providerKey + "]", TableOf(title, host, port));
  }
}
