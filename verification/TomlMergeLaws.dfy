/** What the config.toml merge keeps, and when it is last-writer-wins. */
module TomlMergeLaws {
  import opened Core
  import opened TomlLines
  import opened TomlMerge

  // ---- the user's lines, as kept ---------------------------------------------------------

  predicate Edged(lines: seq<string>) {
    lines != [] ==> !IsBlank(lines[0]) && !IsBlank(lines[|lines| - 1])
  }

  /** Lines the merge may keep in the root section. */
  predicate RootKeep(lines: seq<string>) {
    Edged(lines) && AllOneLine(lines) && forall l :: l in lines ==> !IsHeader(l) && !ManagedLine(l)
  }

  /** Lines the merge may keep of the tables: whole tables, none of them ours. */
  predicate TableKeep(lines: seq<string>, key: string) {
    && Edged(lines) && AllOneLine(lines)
    && (lines != [] ==> IsHeader(lines[0]))
    && forall l :: l in lines ==> !OwnHeader(l, key)
  }

  /** The user's own lines of an existing file: root section, and tables. */
  function UserRoot(existing: Option<string>): seq<string> {
    if existing.None? || IsBlank(existing.value) then [] else KeptRoot(Split(DropCr(existing.value)))
  }

  function UserTables(existing: Option<string>, key: string): seq<string> {
    if existing.None? || IsBlank(existing.value) then [] else KeptSections(Split(DropCr(existing.value)), key)
  }

  lemma {:induction false} DropLeadKeeps(lines: seq<string>)
    ensures DropLead(lines) != [] ==> !IsBlank(DropLead(lines)[0])
    ensures |DropLead(lines)| <= |lines| && DropLead(lines) == lines[|lines| - |DropLead(lines)|..]
    ensures lines != [] && !IsBlank(lines[0]) ==> DropLead(lines) == lines
  {
    if lines != [] && IsBlank(lines[0]) {
      DropLeadKeeps(lines[1..]);
    }
  }

  lemma {:induction false} DropTailKeeps(lines: seq<string>)
    ensures DropTail(lines) <= lines
    ensures DropTail(lines) != [] ==> !IsBlank(DropTail(lines)[|DropTail(lines)| - 1])
    ensures lines != [] && !IsBlank(lines[0]) ==> DropTail(lines) != []
  {
    if lines != [] && IsBlank(lines[|lines| - 1]) {
      DropTailKeeps(lines[..|lines| - 1]);
    }
  }

  lemma {:induction false} TrimmedEdges(lines: seq<string>)
    ensures Edged(TrimBlankEdges(lines))
    ensures forall l :: l in TrimBlankEdges(lines) ==> l in lines
    ensures AllOneLine(lines) ==> AllOneLine(TrimBlankEdges(lines))
    ensures lines != [] && !IsBlank(lines[0]) ==> TrimBlankEdges(lines) != [] && TrimBlankEdges(lines)[0] == lines[0]
  {
    var lead := DropLead(lines);
    DropLeadKeeps(lines);
    DropTailKeeps(lead);
    var out := DropTail(lead);
    assert forall i :: 0 <= i < |out| ==> out[i] == lines[|lines| - |lead| + i];
  }

  lemma {:induction false} DropTailBlank(lines: seq<string>)
    requires lines == [] || !IsBlank(lines[|lines| - 1])
    ensures DropTail(lines + [""]) == lines
  {
    assert (lines + [""])[..|lines|] == lines;
  }

  /** Blank separators around edged lines are trimmed away again. */
  lemma {:induction false} TrimUnder(lines: seq<string>)
    requires Edged(lines)
    ensures TrimBlankEdges(Under(lines) + [""]) == lines
    ensures TrimBlankEdges(Closed(lines)) == lines
  {
    DropTailBlank(lines);
    if lines == [] {
      assert DropLead([""]) == DropLead([""][1..]) == [];
      assert Under(lines) + [""] == [""];
    } else {
      assert (Under(lines) + [""])[1..] == lines + [""];
      assert DropLead(lines + [""]) == lines + [""];
    }
  }

  lemma {:induction false} UnmanagedAppend(a: seq<string>, b: seq<string>)
    ensures Unmanaged(a + b) == Unmanaged(a) + Unmanaged(b)
  {
    if b == [] {
      assert a + b == a;
    } else {
      var last := b[|b| - 1];
      assert (a + b)[..|a + b| - 1] == a + b[..|b| - 1];
      UnmanagedAppend(a, b[..|b| - 1]);
    }
  }

  lemma {:induction false} UnmanagedAll(a: seq<string>)
    requires forall i :: 0 <= i < |a| ==> ManagedLine(a[i])
    ensures Unmanaged(a) == []
  {
    if a != [] { UnmanagedAll(a[..|a| - 1]); }
  }

  lemma {:induction false} UnmanagedNone(a: seq<string>)
    requires forall i :: 0 <= i < |a| ==> !ManagedLine(a[i])
    ensures Unmanaged(a) == a
  {
    if a != [] {
      UnmanagedNone(a[..|a| - 1]);
      assert a == a[..|a| - 1] + [a[|a| - 1]];
    }
  }

  lemma {:induction false} UnmanagedMember(a: seq<string>, l: string)
    requires l in Unmanaged(a)
    ensures l in a && !ManagedLine(l)
  {
    var init, last := a[..|a| - 1], a[|a| - 1];
    if l in Unmanaged(init) {
      UnmanagedMember(init, l);
    }
  }

  lemma {:induction false} KeptRootKeep(lines: seq<string>)
    requires AllOneLine(lines)
    ensures RootKeep(KeptRoot(lines))
  {
    var root := lines[..FirstHeader(lines)];
    var user := Unmanaged(root);
    forall l | l in user ensures l in root && !ManagedLine(l) { UnmanagedMember(root, l); }
    assert AllOneLine(user) by {
      forall i | 0 <= i < |user| ensures OneLine(user[i]) { assert user[i] in user; }
    }
    TrimmedEdges(user);
  }

  lemma {:induction false} OutsideOwnMember(lines: seq<string>, key: string, n: nat, l: string)
    requires n <= |lines| && l in OutsideOwn(lines, key, n)
    ensures l in lines && !OwnHeader(l, key)
  {
    if l in OutsideOwn(lines, key, n - 1) {
      OutsideOwnMember(lines, key, n - 1, l);
    } else {
      assert l == lines[n - 1] && !InOwnTable(lines, key, n - 1);
    }
  }

  /** A first line that is left opens a foreign table. */
  lemma {:induction false} OutsideOwnFirst(lines: seq<string>, key: string, n: nat)
    requires n <= |lines| && (lines != [] ==> IsHeader(lines[0]))
    ensures var out := OutsideOwn(lines, key, n);
      if out == [] then (n > 0 ==> InOwnTable(lines, key, n - 1)) else IsHeader(out[0])
  {
    if n > 0 {
      OutsideOwnFirst(lines, key, n - 1);
      if OutsideOwn(lines, key, n - 1) == [] && n > 1 && !IsHeader(lines[n - 1]) {
        assert NearestHeader(lines, n - 1) == NearestHeader(lines, n - 2);
      }
    }
  }

  /** Outside our own table, only whole foreign tables are left. */
  lemma {:induction false} OutsideOwnKeep(lines: seq<string>, key: string)
    requires lines != [] ==> IsHeader(lines[0])
    ensures var out := RemoveProviderTable(lines, key);
      && (forall l :: l in out ==> l in lines && !OwnHeader(l, key))
      && (out != [] ==> IsHeader(out[0]))
  {
    OutsideOwnFirst(lines, key, |lines|);
    forall l | l in RemoveProviderTable(lines, key) ensures l in lines && !OwnHeader(l, key) {
      OutsideOwnMember(lines, key, |lines|, l);
    }
  }

  lemma {:induction false} KeptSectionsKeep(lines: seq<string>, key: string)
    requires AllOneLine(lines)
    ensures TableKeep(KeptSections(lines, key), key)
  {
    var tables := lines[FirstHeader(lines)..];
    OutsideOwnKeep(tables, key);
    var out := RemoveProviderTable(tables, key);
    assert AllOneLine(out) by {
      forall i | 0 <= i < |out| ensures OneLine(out[i]) { assert out[i] in out; }
    }
    if out != [] { HeaderSolid(out[0]); }
    TrimmedEdges(out);
  }

  lemma {:induction false} HeaderSolid(l: string)
    requires IsHeader(l)
    ensures !IsBlank(l) && l != ""
  {
    TrimStartBlank(l);
  }

  lemma {:induction false} UserKeep(existing: Option<string>, key: string)
    ensures RootKeep(UserRoot(existing))
    ensures TableKeep(UserTables(existing, key), key)
  {
    if existing.Some? && !IsBlank(existing.value) {
      var lines := Split(DropCr(existing.value));
      SplitOneLine(DropCr(existing.value));
      KeptRootKeep(lines);
      KeptSectionsKeep(lines, key);
    }
  }

  // ---- rendering and reading back --------------------------------------------------------

  /** Tables closed off from what follows by a blank line. */
  function Closed(tables: seq<string>): seq<string> {
    if tables == [] then [] else tables + [""]
  }

  lemma {:induction false} LaidByParts(managed: seq<string>, root: seq<string>, tables: seq<string>, block: seq<string>)
    ensures Laid(managed, root, tables, block) + [""]
         == (managed + (Under(root) + [""])) + (Closed(tables) + (block + [""]))
  {
  }

  /** A patch as the program builds it: one-line names, and a block that is one table of ours
      with no blank line in it. */
  predicate SingleTable(p: Patch) {
    var b := BlockLines(p);
    && OneLine(p.model) && OneLine(p.modelProvider)
    && OwnHeader(b[0], p.providerKey)
    && (forall i :: 0 < i < |b| ==> !IsHeader(b[i]))
    && forall l :: l in b ==> !IsBlank(l) && !EndsInCr(l)
  }

  /** The text of a merge over the given user lines. */
  function Rendered(p: Patch, root: seq<string>, tables: seq<string>): string {
    Join(Laid(ManagedBlock(p), Thinned(root, false), Thinned(tables, false), BlockLines(p)) + [""])
  }

  lemma {:induction false} DecimalDigits(n: nat)
    ensures Decimal(n) != "" && forall c :: c in Decimal(n) ==> '0' <= c <= '9'
  {
    if n >= 10 { DecimalDigits(n / 10); }
  }

  predicate OursAtRoot(l: string) {
    ManagedLine(l) && !IsHeader(l) && !IsBlank(l) && !EndsInCr(l) && OneLine(l)
  }

  lemma {:induction false} SettingAssigns(key: string, value: string)
    requires key != "" && key[0] == 'm'
    ensures Assigns(Setting(key, value), key)
  {
    var l := Setting(key, value);
    assert l[0] == 'm' && TrimStart(l) == l;
    var rest := l[|key|..];
    assert rest == " = " + value;
    assert rest[1..] == "= " + value;
    assert TrimStart(rest) == rest[1..];
  }

  lemma {:induction false} SettingEnds(key: string, value: string)
    requires key != "" && key[0] == 'm' && OneLine(key)
    requires value != "" && OneLine(value) && value[|value| - 1] != '\r'
    ensures var l := Setting(key, value);
      l[0] == 'm' && !IsHeader(l) && !IsBlank(l) && !EndsInCr(l) && OneLine(l)
  {
    var l := Setting(key, value);
    assert l[0] == 'm' && TrimStart(l) == l;
    assert l[|l| - 1] == value[|value| - 1];
  }

  lemma {:induction false} SettingOurs(key: string, value: string)
    requires key in {"model", "model_provider", "model_context_window", "model_max_output_tokens"}
    requires value != "" && OneLine(value) && value[|value| - 1] != '\r'
    ensures OursAtRoot(Setting(key, value)) && Setting(key, value)[0] == 'm'
  {
    SettingAssigns(key, value);
    SettingEnds(key, value);
  }

  predicate AllOurs(lines: seq<string>) {
    forall l :: l in lines ==> OursAtRoot(l)
  }

  lemma {:induction false} TuningOurs(key: string, value: Option<nat>)
    requires key in {"model_context_window", "model_max_output_tokens"}
    ensures AllOurs(Tuning(key, value))
  {
    if value.Some? {
      DecimalDigits(value.value);
      SettingOurs(key, Decimal(value.value));
    }
  }

  lemma {:induction false} ManagedLines(p: Patch)
    requires OneLine(p.model) && OneLine(p.modelProvider)
    ensures AllOurs(ManagedBlock(p))
    ensures |ManagedBlock(p)| >= 2 && ManagedBlock(p)[0] != "" && ManagedBlock(p)[0][0] == 'm'
  {
    SettingOurs("model", Quoted(p.model));
    SettingOurs("model_provider", Quoted(p.modelProvider));
    TuningOurs("model_context_window", p.contextWindow);
    TuningOurs("model_max_output_tokens", p.maxOutputTokens);
  }

  lemma {:induction false} SplitLast(text: string)
    ensures var last := Split(text)[|Split(text)| - 1];
      last != "" ==> text != "" && text[|text| - 1] == last[|last| - 1]
  {
    if text != "" {
      SplitLast(text[1..]);
    }
  }

  lemma {:induction false} BlockEnd(p: Patch)
    requires SingleTable(p)
    ensures var b := BlockLines(p);
      AllOneLine(b) && b[|b| - 1] != "" && !IsSpace(b[|b| - 1][|b[|b| - 1]| - 1])
  {
    var b := BlockLines(p);
    SplitOneLine(TrimEnd(p.providerBlock));
    assert b[|b| - 1] in b;
    SplitLast(TrimEnd(p.providerBlock));
    TrimEndBlank(p.providerBlock);
  }

  lemma {:induction false} ThinnedGap(a: seq<string>, rest: seq<string>)
    requires a != [] && a[0] != "" && a[|a| - 1] != ""
    ensures Thinned([""] + (a + rest), false) == [""] + (Thinned(a, false) + Thinned(rest, false))
  {
    ThinnedAppend(a, rest, true);
    assert Thinned(a, true) == Thinned(a, false);
    assert ([""] + (a + rest))[1..] == a + rest;
  }

  lemma {:induction false} ThinnedUnder(a: seq<string>, rest: seq<string>)
    requires Edged(a)
    ensures Thinned(Under(a) + rest, false) == Under(Thinned(a, false)) + Thinned(rest, false)
  {
    if a == [] {
      EmptyEnds(rest);
      EmptyEnds(Thinned(rest, false));
    } else {
      ThinnedLast(a, false);
      ThinnedGap(a, rest);
      Regroup([""], a, rest);
      Regroup([""], Thinned(a, false), Thinned(rest, false));
    }
  }

  lemma {:induction false} LaidRight(managed: seq<string>, root: seq<string>, tables: seq<string>, block: seq<string>)
    ensures Laid(managed, root, tables, block) == managed + (Under(root) + (Under(tables) + ([""] + block)))
  {
  }

  lemma {:induction false} ThinnedLaid(managed: seq<string>, root: seq<string>, tables: seq<string>, block: seq<string>)
    requires managed != [] && block != [] && Edged(root) && Edged(tables)
    requires forall i :: 0 <= i < |managed| ==> managed[i] != ""
    requires forall i :: 0 <= i < |block| ==> block[i] != ""
    ensures Thinned(Laid(managed, root, tables, block), false)
         == Laid(managed, Thinned(root, false), Thinned(tables, false), block)
  {
    LaidRight(managed, root, tables, block);
    LaidRight(managed, Thinned(root, false), Thinned(tables, false), block);
    var tail := [""] + block;
    ThinnedTail(block);
    ThinnedUnder(tables, tail);
    ThinnedUnder(root, Under(tables) + tail);
    ThinnedSolid(managed, false);
    ThinnedAppend(managed, Under(root) + (Under(tables) + tail), false);
  }

  lemma {:induction false} ThinnedTail(block: seq<string>)
    requires block != [] && forall i :: 0 <= i < |block| ==> block[i] != ""
    ensures Thinned([""] + block, false) == [""] + block
  {
    assert ([""] + block)[1..] == block;
    ThinnedSolid(block, true);
  }

  lemma {:induction false} LaidLines(managed: seq<string>, root: seq<string>, tables: seq<string>, block: seq<string>)
    requires AllOneLine(managed) && AllOneLine(root) && AllOneLine(tables) && AllOneLine(block)
    ensures AllOneLine(Laid(managed, root, tables, block))
  {
    var all := Laid(managed, root, tables, block);
    forall i | 0 <= i < |all| ensures OneLine(all[i]) {
      assert all[i] in managed || all[i] in root || all[i] in tables || all[i] in block || all[i] == "";
    }
  }

  lemma {:induction false} CollapseFromStart(text: string)
    requires text != "" && text[0] != '\n'
    ensures Collapse(text, 0) == Collapse(text, 1)
  {
  }

  lemma {:induction false} JoinHead(lines: seq<string>)
    requires lines != [] && lines[0] != ""
    ensures Join(lines) != "" && Join(lines)[0] == lines[0][0]
  {
  }

  lemma {:induction false} JoinEnd(lines: seq<string>)
    requires lines != [] && lines[|lines| - 1] != ""
    ensures Join(lines) != ""
    ensures Join(lines)[|Join(lines)| - 1] == lines[|lines| - 1][|lines[|lines| - 1]| - 1]
  {
    if |lines| > 1 {
      JoinEnd(lines[1..]);
    }
  }

  lemma {:induction false} ManagedOneLine(p: Patch)
    requires OneLine(p.model) && OneLine(p.modelProvider)
    ensures AllOneLine(ManagedBlock(p)) && forall i :: 0 <= i < |ManagedBlock(p)| ==> ManagedBlock(p)[i] != ""
  {
    ManagedLines(p);
    forall i | 0 <= i < |ManagedBlock(p)| ensures OneLine(ManagedBlock(p)[i]) && ManagedBlock(p)[i] != "" {
      assert ManagedBlock(p)[i] in ManagedBlock(p);
    }
  }

  /** Collapsing and trimming the joined lines is joining the thinned lines. */
  lemma {:induction false} TidyJoin(lines: seq<string>, last: string)
    requires lines != [] && AllOneLine(lines) && lines[0] != "" && lines[|lines| - 1] == last
    requires last != "" && !IsSpace(last[|last| - 1])
    ensures TrimEnd(Collapse(Join(lines), 0)) + "\n" == Join(Thinned(lines, false) + [""])
  {
    assert OneLine(lines[0]) && lines[0][0] in lines[0];
    JoinHead(lines);
    CollapseFromStart(Join(lines));
    CollapseJoin(lines, false);
    ThinnedLast(lines, false);
    var thin := Thinned(lines, false);
    JoinEnd(thin);
    JoinSnoc(thin, "");
    assert Join(thin) + "\n" + "" == Join(thin) + "\n";
  }

  lemma {:induction false} LaidEnds(managed: seq<string>, root: seq<string>, tables: seq<string>, block: seq<string>)
    requires managed != [] && block != []
    ensures var laid := Laid(managed, root, tables, block);
      laid != [] && laid[0] == managed[0] && laid[|laid| - 1] == block[|block| - 1]
  {
  }

  lemma {:induction false} RenderLaid(p: Patch, root: seq<string>, tables: seq<string>)
    requires SingleTable(p) && Edged(root) && Edged(tables) && AllOneLine(root) && AllOneLine(tables)
    ensures TrimEnd(Collapse(Join(Laid(ManagedBlock(p), root, tables, BlockLines(p))), 0)) + "\n"
         == Rendered(p, root, tables)
  {
    var m, b := ManagedBlock(p), BlockLines(p);
    ManagedLines(p);
    ManagedOneLine(p);
    BlockEnd(p);
    LaidLines(m, root, tables, b);
    LaidEnds(m, root, tables, b);
    TidyJoin(Laid(m, root, tables, b), b[|b| - 1]);
    forall i | 0 <= i < |b| ensures b[i] != "" { assert b[i] in b; }
    ThinnedLaid(m, root, tables, b);
  }

  /** Every merge is the rendering of the user's own lines, whatever the file held before. */
  lemma {:induction false} MergeRenders(existing: Option<string>, p: Patch)
    requires SingleTable(p)
    ensures Merge(existing, p) == Rendered(p, UserRoot(existing), UserTables(existing, p.providerKey))
  {
    UserKeep(existing, p.providerKey);
    if existing.None? || IsBlank(existing.value) {
      var laid := ManagedBlock(p) + [""] + BlockLines(p);
      assert Laid(ManagedBlock(p), [], [], BlockLines(p)) == laid;
      JoinSnoc(laid, "");
      assert Join(laid) + "\n" + "" == Join(laid) + "\n";
    } else {
      RenderLaid(p, UserRoot(existing), UserTables(existing, p.providerKey));
    }
  }

  // ---- reading a merge back --------------------------------------------------------------

  lemma {:induction false} FirstHeaderAt(a: seq<string>, b: seq<string>)
    requires forall l :: l in a ==> !IsHeader(l)
    requires b != [] && IsHeader(b[0])
    ensures FirstHeader(a + b) == |a|
  {
    if a == [] {
      assert a + b == b;
    } else {
      assert (a + b)[1..] == a[1..] + b;
      FirstHeaderAt(a[1..], b);
    }
  }

  lemma {:induction false} OwnFrom(lines: seq<string>, t: nat, key: string, i: nat)
    requires t <= |lines| && i < |lines|
    requires forall k :: 0 <= k < t ==> !OwnHeader(lines[k], key)
    requires t < |lines| ==> OwnHeader(lines[t], key)
    requires forall k :: t < k < |lines| ==> !IsHeader(lines[k])
    ensures InOwnTable(lines, key, i) <==> t <= i
  {
    if t <= i {
      var h := NearestHeader(lines, i);
      assert !(t < h <= i);
      assert h == t;
    }
  }

  /** Exactly the lines from t on belong to our table. */
  predicate OwnFromLine(lines: seq<string>, t: nat, key: string) {
    forall i :: 0 <= i < |lines| ==> (InOwnTable(lines, key, i) <==> t <= i)
  }

  lemma {:induction false} ForeignKept(lines: seq<string>, t: nat, key: string, n: nat)
    requires n <= t <= |lines| && OwnFromLine(lines, t, key)
    ensures OutsideOwn(lines, key, n) == lines[..n]
  {
    if n > 0 {
      ForeignKept(lines, t, key, n - 1);
      assert !InOwnTable(lines, key, n - 1);
      assert lines[..n] == lines[..n - 1] + [lines[n - 1]];
    }
  }

  lemma {:induction false} OwnDropped(lines: seq<string>, t: nat, key: string, n: nat)
    requires t <= n <= |lines| && OwnFromLine(lines, t, key)
    ensures OutsideOwn(lines, key, n) == lines[..t]
  {
    if n == t {
      ForeignKept(lines, t, key, t);
    } else {
      OwnDropped(lines, t, key, n - 1);
      assert InOwnTable(lines, key, n - 1);
      EmptyEnds(lines[..t]);
    }
  }

  /** In lines that open with foreign tables and end with our own from line t, removing our
      table leaves exactly the foreign ones. */
  lemma {:induction false} OwnTableGone(lines: seq<string>, t: nat, key: string)
    requires t <= |lines|
    requires forall k :: 0 <= k < t ==> !OwnHeader(lines[k], key)
    requires t < |lines| ==> OwnHeader(lines[t], key)
    requires forall k :: t < k < |lines| ==> !IsHeader(lines[k])
    ensures RemoveProviderTable(lines, key) == lines[..t]
  {
    forall i | 0 <= i < |lines| ensures InOwnTable(lines, key, i) <==> t <= i {
      OwnFrom(lines, t, key, i);
    }
    OwnDropped(lines, t, key, |lines|);
  }

  lemma {:induction false} RootReadBack(managed: seq<string>, root: seq<string>)
    requires AllOurs(managed) && RootKeep(root)
    ensures forall l :: l in managed + (Under(root) + [""]) ==> !IsHeader(l)
    ensures TrimBlankEdges(Unmanaged(managed + (Under(root) + [""]))) == root
  {
    var rest := Under(root) + [""];
    forall l | l in rest ensures !ManagedLine(l) && !IsHeader(l) {
      assert l in root || l == "";
    }
    forall l | l in managed ensures ManagedLine(l) && !IsHeader(l) {
      assert OursAtRoot(l);
    }
    UnmanagedAppend(managed, rest);
    UnmanagedAll(managed);
    UnmanagedNone(rest);
    assert [] + rest == rest;
    TrimUnder(root);
  }

  lemma {:induction false} TablesReadBack(tables: seq<string>, own: seq<string>, key: string)
    requires TableKeep(tables, key)
    requires own != [] && OwnHeader(own[0], key) && forall i :: 0 < i < |own| ==> !IsHeader(own[i])
    ensures TrimBlankEdges(RemoveProviderTable(Closed(tables) + own, key)) == tables
    ensures IsHeader((Closed(tables) + own)[0])
  {
    var kept := Closed(tables);
    var lines := kept + own;
    forall k | 0 <= k < |kept| ensures !OwnHeader(lines[k], key) {
      assert lines[k] == kept[k];
      assert kept[k] in tables || kept[k] == "";
    }
    assert forall k :: |kept| <= k < |lines| ==> lines[k] == own[k - |kept|];
    OwnTableGone(lines, |kept|, key);
    assert lines[..|kept|] == kept;
    TrimUnder(tables);
  }

  lemma {:induction false} ReadBack(p: Patch, root: seq<string>, tables: seq<string>)
    requires SingleTable(p) && RootKeep(root) && TableKeep(tables, p.providerKey)
    ensures var lines := Laid(ManagedBlock(p), root, tables, BlockLines(p)) + [""];
      KeptRoot(lines) == root && KeptSections(lines, p.providerKey) == tables
  {
    var m, own := ManagedBlock(p), BlockLines(p) + [""];
    var a, b := m + (Under(root) + [""]), Closed(tables) + own;
    LaidByParts(m, root, tables, BlockLines(p));
    ManagedLines(p);
    RootReadBack(m, root);
    forall i | 0 < i < |own| ensures !IsHeader(own[i]) {
      assert own[i] == "" || own[i] == BlockLines(p)[i];
    }
    TablesReadBack(tables, own, p.providerKey);
    FirstHeaderAt(a, b);
    assert (a + b)[..|a|] == a && (a + b)[|a|..] == b;
  }

  lemma {:induction false} ThinnedKeep(lines: seq<string>)
    requires Edged(lines)
    ensures Edged(Thinned(lines, false)) && (forall l :: l in Thinned(lines, false) ==> l in lines)
    ensures AllOneLine(lines) ==> AllOneLine(Thinned(lines, false))
    ensures lines != [] ==> Thinned(lines, false) != [] && Thinned(lines, false)[0] == lines[0]
  {
    ThinnedMembers(lines, false);
    if lines != [] { ThinnedLast(lines, false); }
    var r := Thinned(lines, false);
    if AllOneLine(lines) {
      forall i | 0 <= i < |r| ensures OneLine(r[i]) { assert r[i] in lines; }
    }
  }

  lemma {:induction false} StripKeep(lines: seq<string>, key: string)
    requires Edged(lines) && AllOneLine(lines)
    ensures Edged(StripAll(lines)) && AllOneLine(StripAll(lines))
    ensures RootKeep(lines) ==> RootKeep(StripAll(lines))
    ensures TableKeep(lines, key) ==> TableKeep(StripAll(lines), key)
  {
    StripAllShape(lines);
    var r := StripAll(lines);
    forall i | 0 <= i < |r|
      ensures IsBlank(r[i]) == IsBlank(lines[i]) && IsHeader(r[i]) == IsHeader(lines[i]) && OneLine(r[i])
      ensures OwnHeader(r[i], key) == OwnHeader(lines[i], key) && ManagedLine(r[i]) == ManagedLine(lines[i])
    {
      StripCrKind(lines[i], key);
    }
    assert forall i :: 0 <= i < |lines| ==> lines[i] in lines;
  }

  lemma {:induction false} StripUnder(lines: seq<string>)
    ensures StripAll(Under(lines)) == Under(StripAll(lines))
  {
    if lines != [] { StripAllAppend([""], lines); }
  }

  lemma {:induction false} StripLaid(managed: seq<string>, root: seq<string>, tables: seq<string>, block: seq<string>)
    requires NoCrEnds(managed) && NoCrEnds(block)
    ensures StripAll(Laid(managed, root, tables, block)) == Laid(managed, StripAll(root), StripAll(tables), block)
  {
    StripAllClean(managed);
    StripAllClean(block);
    StripUnder(root);
    StripUnder(tables);
    StripAllClean([""]);
    StripAllAppend(managed, Under(root));
    StripAllAppend(managed + Under(root), Under(tables));
    StripAllAppend(managed + Under(root) + Under(tables), [""]);
    StripAllAppend(managed + Under(root) + Under(tables) + [""], block);
  }

  /** What the next merge sees of an earlier one. */
  function Reread(lines: seq<string>): seq<string> {
    StripAll(Thinned(lines, false))
  }

  lemma {:induction false} RenderedSolid(p: Patch, root: seq<string>, tables: seq<string>)
    requires SingleTable(p)
    ensures !IsBlank(Rendered(p, root, tables))
  {
    ManagedLines(p);
    var lines := Laid(ManagedBlock(p), Thinned(root, false), Thinned(tables, false), BlockLines(p)) + [""];
    assert lines[0] == ManagedBlock(p)[0];
    JoinHead(lines);
    assert !IsSpace(Join(lines)[0]);
  }

  /** The lines an earlier merge wrote, as they are read again. */
  lemma {:induction false} RereadLines(p: Patch, root: seq<string>, tables: seq<string>)
    requires SingleTable(p) && RootKeep(root) && TableKeep(tables, p.providerKey)
    ensures DropCr(Rendered(p, root, tables))
         == Join(Laid(ManagedBlock(p), Reread(root), Reread(tables), BlockLines(p)) + [""])
  {
    var m, b, tr, tt := ManagedBlock(p), BlockLines(p), Thinned(root, false), Thinned(tables, false);
    ManagedLines(p);
    ManagedOneLine(p);
    BlockEnd(p);
    ThinnedKeep(root);
    ThinnedKeep(tables);
    LaidLines(m, tr, tt, b);
    DropCrJoin(Laid(m, tr, tt, b));
    forall l | l in m ensures !EndsInCr(l) { assert OursAtRoot(l); }
    StripLaid(m, tr, tt, b);
  }

  lemma {:induction false} RereadKeep(p: Patch, root: seq<string>, tables: seq<string>)
    requires SingleTable(p) && RootKeep(root) && TableKeep(tables, p.providerKey)
    ensures RootKeep(Reread(root)) && TableKeep(Reread(tables), p.providerKey)
    ensures AllOneLine(Laid(ManagedBlock(p), Reread(root), Reread(tables), BlockLines(p)) + [""])
  {
    ManagedLines(p);
    ManagedOneLine(p);
    BlockEnd(p);
    ThinnedKeep(root);
    ThinnedKeep(tables);
    StripKeep(Thinned(root, false), p.providerKey);
    StripKeep(Thinned(tables, false), p.providerKey);
    var back := Laid(ManagedBlock(p), Reread(root), Reread(tables), BlockLines(p));
    LaidLines(ManagedBlock(p), Reread(root), Reread(tables), BlockLines(p));
    forall i | 0 <= i < |back + [""]| ensures OneLine((back + [""])[i]) {
      if i < |back| { assert (back + [""])[i] == back[i]; }
    }
  }

  lemma {:induction false} ReadMerged(p: Patch, root: seq<string>, tables: seq<string>)
    requires SingleTable(p) && RootKeep(root) && TableKeep(tables, p.providerKey)
    ensures UserRoot(Some(Rendered(p, root, tables))) == Reread(root)
    ensures UserTables(Some(Rendered(p, root, tables)), p.providerKey) == Reread(tables)
  {
    RereadLines(p, root, tables);
    RereadKeep(p, root, tables);
    SplitJoin(Laid(ManagedBlock(p), Reread(root), Reread(tables), BlockLines(p)) + [""]);
    RenderedSolid(p, root, tables);
    ReadBack(p, Reread(root), Reread(tables));
  }

  // ---- the laws --------------------------------------------------------------------------

  /** Characters in the lines, without the breaks between them. */
  function Size(lines: seq<string>): nat {
    if lines == [] then 0 else |lines[0]| + Size(lines[1..])
  }

  lemma {:induction false} SizeAppend(a: seq<string>, b: seq<string>)
    ensures Size(a + b) == Size(a) + Size(b)
  {
    if a == [] {
      assert a + b == b;
    } else {
      SizeAppend(a[1..], b);
      assert (a + b)[1..] == a[1..] + b;
    }
  }

  lemma {:induction false} SizeLaid(managed: seq<string>, root: seq<string>, tables: seq<string>, block: seq<string>)
    ensures Size(Laid(managed, root, tables, block)) == Size(managed) + Size(root) + Size(tables) + Size(block)
  {
    SizeAppend([""], root);
    SizeAppend([""], tables);
    SizeAppend(managed, Under(root));
    SizeAppend(managed + Under(root), Under(tables));
    SizeAppend(managed + Under(root) + Under(tables), [""]);
    SizeAppend(managed + Under(root) + Under(tables) + [""], block);
  }

  lemma {:induction false} SizeThinned(a: seq<string>, gap: bool)
    ensures Size(Thinned(a, gap)) == Size(a)
  {
    if a != [] {
      var rest := Thinned(a[1..], a[0] == "");
      SizeThinned(a[1..], a[0] == "");
      SizeAppend([a[0]], rest);
      assert [] + rest == rest;
    }
  }

  lemma {:induction false} SizeStripped(a: seq<string>)
    ensures Size(StripAll(a)) <= Size(a)
    ensures Size(StripAll(a)) == Size(a) <==> NoCrEnds(a)
  {
    if a != [] {
      SizeStripped(a[1..]);
      assert StripAll(a)[1..] == StripAll(a[1..]);
      assert forall l :: l in a <==> l == a[0] || l in a[1..];
    }
  }

  lemma {:induction false} ThinnedCrEnds(a: seq<string>, gap: bool)
    ensures NoCrEnds(Thinned(a, gap)) <==> NoCrEnds(a)
  {
    if a != [] {
      var rest := Thinned(a[1..], a[0] == "");
      ThinnedCrEnds(a[1..], a[0] == "");
      assert forall l :: l in a <==> l == a[0] || l in a[1..];
    }
  }

  lemma {:induction false} RereadSize(a: seq<string>)
    ensures Size(Reread(a)) <= Size(a)
    ensures Size(Reread(a)) == Size(a) <==> NoCrEnds(a)
    ensures NoCrEnds(a) ==> Reread(a) == Thinned(a, false)
  {
    ThinnedCrEnds(a, false);
    SizeThinned(a, false);
    SizeStripped(Thinned(a, false));
    if NoCrEnds(a) { StripAllClean(Thinned(a, false)); }
  }

  lemma {:induction false} RenderedLines(p: Patch, root: seq<string>, tables: seq<string>)
    requires SingleTable(p) && RootKeep(root) && TableKeep(tables, p.providerKey)
    ensures Split(Rendered(p, root, tables))
         == Laid(ManagedBlock(p), Thinned(root, false), Thinned(tables, false), BlockLines(p)) + [""]
  {
    ManagedOneLine(p);
    BlockEnd(p);
    ThinnedKeep(root);
    ThinnedKeep(tables);
    LaidLines(ManagedBlock(p), Thinned(root, false), Thinned(tables, false), BlockLines(p));
    var laid := Laid(ManagedBlock(p), Thinned(root, false), Thinned(tables, false), BlockLines(p));
    assert AllOneLine(laid + [""]) by {
      forall i | 0 <= i < |laid + [""]| ensures OneLine((laid + [""])[i]) {
        if i < |laid| { assert (laid + [""])[i] == laid[i]; }
      }
    }
    SplitJoin(laid + [""]);
  }

  lemma {:induction false} RenderedSize(p: Patch, root: seq<string>, tables: seq<string>)
    requires SingleTable(p) && RootKeep(root) && TableKeep(tables, p.providerKey)
    ensures Size(Split(Rendered(p, root, tables)))
         == Size(ManagedBlock(p)) + Size(root) + Size(tables) + Size(BlockLines(p))
  {
    RenderedLines(p, root, tables);
    var r, t := Thinned(root, false), Thinned(tables, false);
    SizeAppend(Laid(ManagedBlock(p), r, t, BlockLines(p)), [""]);
    SizeLaid(ManagedBlock(p), r, t, BlockLines(p));
    SizeThinned(root, false);
    SizeThinned(tables, false);
  }

  /** No line of the user's that survives a merge ends in a carriage return. */
  predicate CleanEnds(existing: Option<string>, key: string) {
    NoCrEnds(UserRoot(existing)) && NoCrEnds(UserTables(existing, key))
  }

  lemma {:induction false} RereadAgain(root: seq<string>, tables: seq<string>, p: Patch)
    requires NoCrEnds(root) && NoCrEnds(tables)
    ensures Rendered(p, Reread(root), Reread(tables)) == Rendered(p, root, tables)
  {
    RereadSize(root);
    RereadSize(tables);
    ThinnedTwice(root, false);
    ThinnedTwice(tables, false);
  }

  /** Last writer wins: merging two patches for the same provider one after the other gives what
      the second alone gives — exactly when no surviving user line ends in a carriage return. */
  lemma {:induction false} LastWriterWins(existing: Option<string>, p: Patch, q: Patch)
    requires SingleTable(p) && SingleTable(q) && p.providerKey == q.providerKey
    ensures Merge(Some(Merge(existing, p)), q) == Merge(existing, q) <==> CleanEnds(existing, p.providerKey)
  {
    var key := p.providerKey;
    var root, tables := UserRoot(existing), UserTables(existing, key);
    UserKeep(existing, key);
    MergeRenders(existing, p);
    MergeRenders(existing, q);
    ReadMerged(p, root, tables);
    UserKeep(Some(Merge(existing, p)), key);
    MergeRenders(Some(Merge(existing, p)), q);
    assert Merge(Some(Merge(existing, p)), q) == Rendered(q, Reread(root), Reread(tables));
    RenderedSize(q, root, tables);
    RenderedSize(q, Reread(root), Reread(tables));
    RereadSize(root);
    RereadSize(tables);
    if CleanEnds(existing, key) {
      RereadAgain(root, tables, q);
    }
  }

  lemma {:induction false} SplitChars(text: string, c: char)
    requires c !in text
    ensures forall l :: l in Split(text) ==> c !in l
  {
    if text != "" {
      SplitChars(text[1..], c);
      var rest := Split(text[1..]);
      assert rest[0] in rest;
    }
  }

  /** What a merge leaves in the file, line for line: the managed settings, then the user's root
      lines and tables in their own order, thinned of doubled empty lines, then our table. */
  lemma {:induction false} MergedLines(existing: Option<string>, p: Patch)
    requires SingleTable(p)
    ensures Split(Merge(existing, p))
         == Laid(ManagedBlock(p), Thinned(UserRoot(existing), false),
                 Thinned(UserTables(existing, p.providerKey), false), BlockLines(p)) + [""]
  {
    UserKeep(existing, p.providerKey);
    MergeRenders(existing, p);
    RenderedLines(p, UserRoot(existing), UserTables(existing, p.providerKey));
  }

  function NonBlank(lines: seq<string>): seq<string> {
    if lines == [] then [] else (if IsBlank(lines[0]) then [] else [lines[0]]) + NonBlank(lines[1..])
  }

  lemma {:induction false} NonBlankAppend(a: seq<string>, b: seq<string>)
    ensures NonBlank(a + b) == NonBlank(a) + NonBlank(b)
  {
    if a == [] {
      assert a + b == b;
    } else {
      NonBlankAppend(a[1..], b);
      assert (a + b)[1..] == a[1..] + b;
      var head := if IsBlank(a[0]) then [] else [a[0]];
      Regroup(head, NonBlank(a[1..]), NonBlank(b));
    }
  }

  lemma {:induction false} NonBlankSolid(a: seq<string>)
    requires forall l :: l in a ==> !IsBlank(l)
    ensures NonBlank(a) == a
  {
    if a != [] { NonBlankSolid(a[1..]); }
  }

  lemma {:induction false} NonBlankThinned(a: seq<string>, gap: bool)
    ensures NonBlank(Thinned(a, gap)) == NonBlank(a)
  {
    if a != [] {
      var rest := Thinned(a[1..], a[0] == "");
      NonBlankThinned(a[1..], a[0] == "");
      if a[0] == "" && gap {
        assert [] + rest == rest;
      } else {
        assert ([a[0]] + rest)[1..] == rest;
      }
    }
  }

  lemma {:induction false} NonBlankLead(a: seq<string>)
    ensures NonBlank(DropLead(a)) == NonBlank(a)
  {
    if a != [] && IsBlank(a[0]) {
      NonBlankLead(a[1..]);
      assert [] + NonBlank(a[1..]) == NonBlank(a[1..]);
    }
  }

  lemma {:induction false} NonBlankTail(a: seq<string>)
    ensures NonBlank(DropTail(a)) == NonBlank(a)
  {
    if a != [] && IsBlank(a[|a| - 1]) {
      var init := a[..|a| - 1];
      NonBlankTail(init);
      assert a == init + [a[|a| - 1]];
      NonBlankAppend(init, [a[|a| - 1]]);
      assert NonBlank([a[|a| - 1]]) == [];
      assert NonBlank(init) + [] == NonBlank(init);
    }
  }

  lemma {:induction false} NonBlankTrimmed(a: seq<string>)
    ensures NonBlank(TrimBlankEdges(a)) == NonBlank(a)
  {
    NonBlankLead(a);
    NonBlankTail(DropLead(a));
  }

  lemma {:induction false} NonBlankUnder(a: seq<string>)
    ensures NonBlank(Under(a)) == NonBlank(a)
  {
    if a != [] {
      NonBlankAppend([""], a);
      assert NonBlank([""]) == [];
      assert [] + NonBlank(a) == NonBlank(a);
    }
  }

  lemma {:induction false} NonBlankLaid(managed: seq<string>, root: seq<string>, tables: seq<string>,
                                        block: seq<string>)
    requires NonBlank(managed) == managed && NonBlank(block) == block
    ensures NonBlank(Laid(managed, root, tables, block) + [""]) == managed + NonBlank(root) + NonBlank(tables) + block
  {
    NonBlankUnder(root);
    NonBlankUnder(tables);
    NonBlankUnder([]);
    assert NonBlank([""]) == [];
    NonBlankAppend(managed, Under(root));
    NonBlankAppend(managed + Under(root), Under(tables));
    NonBlankAppend(managed + Under(root) + Under(tables), [""]);
    NonBlankAppend(managed + Under(root) + Under(tables) + [""], block);
    NonBlankAppend(Laid(managed, root, tables, block), [""]);
    EmptyEnds(managed + NonBlank(root) + NonBlank(tables));
    EmptyEnds(managed + NonBlank(root) + NonBlank(tables) + block);
  }

  /** Nothing of the user's is lost, altered or moved: the non-blank lines after a merge are the
      managed settings, the user's other root lines, the user's lines outside our table, and our
      table, each in its own order. */
  lemma {:induction false} MergePreserves(text: string, p: Patch)
    requires SingleTable(p) && !IsBlank(text)
    ensures var lines := Split(DropCr(text));
      NonBlank(Split(Merge(Some(text), p)))
      == ManagedBlock(p) + NonBlank(Unmanaged(lines[..FirstHeader(lines)]))
         + NonBlank(RemoveProviderTable(lines[FirstHeader(lines)..], p.providerKey)) + BlockLines(p)
  {
    var lines := Split(DropCr(text));
    var root, tables := KeptRoot(lines), KeptSections(lines, p.providerKey);
    MergedLines(Some(text), p);
    ManagedLines(p);
    forall l | l in ManagedBlock(p) ensures !IsBlank(l) { assert OursAtRoot(l); }
    NonBlankSolid(ManagedBlock(p));
    NonBlankSolid(BlockLines(p));
    NonBlankLaid(ManagedBlock(p), Thinned(root, false), Thinned(tables, false), BlockLines(p));
    NonBlankThinned(root, false);
    NonBlankThinned(tables, false);
    NonBlankTrimmed(Unmanaged(lines[..FirstHeader(lines)]));
    NonBlankTrimmed(RemoveProviderTable(lines[FirstHeader(lines)..], p.providerKey));
  }

  // ---- the condition, in the caller's terms ----------------------------------------------

  lemma {:induction false} CleanRoot(lines: seq<string>)
    requires NoCrEnds(lines)
    ensures NoCrEnds(KeptRoot(lines))
  {
    var root := lines[..FirstHeader(lines)];
    forall l | l in Unmanaged(root) ensures l in root { UnmanagedMember(root, l); }
    TrimmedEdges(Unmanaged(root));
    assert forall l :: l in root ==> l in lines;
  }

  lemma {:induction false} CleanTables(lines: seq<string>, key: string)
    requires NoCrEnds(lines)
    ensures NoCrEnds(KeptSections(lines, key))
  {
    var tables := lines[FirstHeader(lines)..];
    OutsideOwnKeep(tables, key);
    TrimmedEdges(RemoveProviderTable(tables, key));
    assert forall l :: l in tables ==> l in lines;
  }

  lemma {:induction false} OrdinaryFileClean(text: string, key: string)
    requires '\r' !in DropCr(text)
    ensures CleanEnds(Some(text), key)
  {
    if !IsBlank(text) {
      var lines := Split(DropCr(text));
      SplitChars(DropCr(text), '\r');
      forall l | l in lines ensures !EndsInCr(l) { assert '\r' !in l; }
      CleanRoot(lines);
      CleanTables(lines, key);
    }
  }

  /** A file whose only carriage returns stand before line feeds keeps the law, and merging the
      same patch again changes nothing. */
  lemma {:induction false} OrdinaryFileSettles(text: string, p: Patch, q: Patch)
    requires SingleTable(p) && SingleTable(q) && p.providerKey == q.providerKey
    requires '\r' !in DropCr(text)
    ensures Merge(Some(Merge(Some(text), p)), q) == Merge(Some(text), q)
    ensures Merge(Some(Merge(Some(text), p)), p) == Merge(Some(text), p)
  {
    OrdinaryFileClean(text, p.providerKey);
    LastWriterWins(Some(text), p, q);
    LastWriterWins(Some(text), p, p);
  }

  lemma {:induction false} LoneLine(l: string)
    requires l != "" && l[0] == 'x'
    ensures KeptRoot([l, ""]) == [l] && FirstHeader([l, ""]) == 2
  {
    var lines := [l, ""];
    PlainLine(l);
    assert lines[1..] == [""] && FirstHeader([""]) == 1;
    assert lines[..2] == lines;
    UnmanagedNone(lines);
    assert [l] + [""] == lines;
    assert DropLead(lines) == lines;
    DropTailBlank([l]);
  }

  lemma {:induction false} DoubledCrLine(key: string)
    ensures UserRoot(Some("x\r\r\n")) == ["x\r"] && UserTables(Some("x\r\r\n"), key) == []
  {
    var text := "x\r\r\n";
    DropCrLine("x\r\r", "");
    assert text == "x\r\r" + "\n" + "";
    assert StripCr("x\r\r") == "x\r";
    SplitLine("x\r", "");
    assert DropCr(text) == "x\r" + "\n" + "";
    assert Split(DropCr(text)) == ["x\r", ""];
    LoneLine("x\r");
    assert !IsSpace(text[0]);
  }

  lemma {:induction false} PlainLine(l: string)
    requires l != "" && l[0] == 'x'
    ensures !IsHeader(l) && !ManagedLine(l) && !IsBlank(l)
  {
    assert TrimStart(l) == l;
  }

  lemma {:induction false} DoubledCrOnce(p: Patch)
    requires SingleTable(p)
    ensures CleanEnds(Some(Merge(Some("x\r\r\n"), p)), p.providerKey)
  {
    var text, key := Some("x\r\r\n"), p.providerKey;
    DoubledCrLine(key);
    UserKeep(text, key);
    ReadMerged(p, UserRoot(text), UserTables(text, key));
    MergeRenders(text, p);
    StripAllShape(["x\r"]);
    assert Thinned(["x\r"], false) == ["x\r"] && StripCr("x\r") == "x";
    assert Reread(["x\r"]) == ["x"] && Reread([]) == [];
  }

  /** A line ended by two carriage returns and a line feed loses one of them at the first merge
      and the other at the second; then it is settled. */
  lemma {:induction false} DoubledCrShrinksAgain(p: Patch)
    requires SingleTable(p)
    ensures var once := Merge(Some("x\r\r\n"), p);
      var twice := Merge(Some(once), p);
      twice != once && Merge(Some(twice), p) == twice
  {
    var text := Some("x\r\r\n");
    DoubledCrLine(p.providerKey);
    assert EndsInCr(UserRoot(text)[0]);
    LastWriterWins(text, p, p);
    DoubledCrOnce(p);
    LastWriterWins(Some(Merge(text, p)), p, p);
  }

  // ---- the block the program builds ------------------------------------------------------

  function BaseUrl(host: string, port: nat): string {
    "base_url = \"http://" + host + ":" + Decimal(port) + "/v1\""
  }

  function Named(title: string): string {
    "name = \"" + title + "\""
  }

  function ProviderLines(key: string, title: string, host: string, port: nat): seq<string> {
    ["[model_providers." + key + "]", Named(title), BaseUrl(host, port),
     "wire_api = \"responses\"", "requires_openai_auth = true", "request_max_retries = 1"]
  }

  /** `providerTableBlock`. */
  function ProviderTableBlock(key: string, title: string, host: string, port: nat): string {
    Join(ProviderLines(key, title, host, port))
  }

  predicate SettingLine(l: string) {
    OneLine(l) && !IsHeader(l) && !IsBlank(l) && !EndsInCr(l)
  }

  predicate LetterLine(l: string) {
    OneLine(l) && l != "" && !IsSpace(l[0]) && l[0] != '[' && l[|l| - 1] != '\r'
  }

  lemma {:induction false} LettersSet(lines: seq<string>)
    requires forall i :: 0 < i < |lines| ==> LetterLine(lines[i])
    ensures forall i :: 0 < i < |lines| ==> SettingLine(lines[i])
  {
    forall i | 0 < i < |lines| ensures SettingLine(lines[i]) {
      assert LetterLine(lines[i]);
      assert TrimStart(lines[i]) == lines[i];
    }
  }

  lemma {:induction false} SqueezedTight(s: string)
    requires forall c :: c in s ==> !IsSpace(c)
    ensures Squeezed(s) == s
  {
    if s != "" { SqueezedTight(s[1..]); }
  }

  lemma {:induction false} KeyHeader(key: string)
    requires forall c :: c in key ==> !IsSpace(c)
    ensures var l := "[model_providers." + key + "]";
      OwnHeader(l, key) && !IsBlank(l) && !EndsInCr(l) && OneLine(l)
  {
    var l := "[model_providers." + key + "]";
    SqueezedTight(l);
    assert l[0] == '[';
    assert TrimStart(l) == l;
    assert l[|l| - 1] == ']';
  }

  lemma {:induction false} FixedLines(lines: seq<string>)
    requires lines == ["wire_api = \"responses\"", "requires_openai_auth = true", "request_max_retries = 1"]
    ensures forall i :: 0 <= i < 3 ==> LetterLine(lines[i])
    ensures lines[2][|lines[2]| - 1] == '1'
  {
  }

  lemma {:induction false} BuiltLetters(lines: seq<string>, title: string, host: string, port: nat)
    requires OneLine(title) && OneLine(host)
    requires |lines| == 6 && lines[1] == Named(title) && lines[2] == BaseUrl(host, port)
    requires forall i :: 3 <= i < 6 ==> LetterLine(lines[i])
    ensures forall i :: 0 < i < |lines| ==> LetterLine(lines[i])
  {
    DecimalDigits(port);
  }

  lemma {:induction false} BlockText(lines: seq<string>, last: string)
    requires lines != [] && AllOneLine(lines) && lines[|lines| - 1] == last
    requires last != "" && !IsSpace(last[|last| - 1])
    ensures Split(TrimEnd(Join(lines))) == lines
  {
    JoinEnd(lines);
    SplitJoin(lines);
  }

  lemma {:induction false} BuiltLines(p: Patch, title: string, host: string, port: nat)
    requires OneLine(title) && OneLine(host) && forall c :: c in p.providerKey ==> !IsSpace(c)
    requires p.providerBlock == ProviderTableBlock(p.providerKey, title, host, port)
    ensures BlockLines(p) == ProviderLines(p.providerKey, title, host, port)
  {
    var lines := ProviderLines(p.providerKey, title, host, port);
    KeyHeader(p.providerKey);
    FixedLines(lines[3..]);
    assert forall i :: 3 <= i < 6 ==> lines[i] == lines[3..][i - 3];
    BuiltLetters(lines, title, host, port);
    LettersSet(lines);
    BlockText(lines, lines[5]);
  }

  /** The block the program builds is a single table, for a provider key without white space and
      one-line names. */
  lemma {:induction false} BuiltBlock(p: Patch, title: string, host: string, port: nat)
    requires OneLine(p.model) && OneLine(p.modelProvider) && OneLine(title) && OneLine(host)
    requires forall c :: c in p.providerKey ==> !IsSpace(c)
    requires p.providerBlock == ProviderTableBlock(p.providerKey, title, host, port)
    ensures SingleTable(p)
  {
    var lines := ProviderLines(p.providerKey, title, host, port);
    BuiltLines(p, title, host, port);
    KeyHeader(p.providerKey);
    FixedLines(lines[3..]);
    assert forall i :: 3 <= i < 6 ==> lines[i] == lines[3..][i - 3];
    BuiltLetters(lines, title, host, port);
    LettersSet(lines);
  }
}
