/** The surgical merge of managed provider settings into config.toml, line by line
    (src/codex/tomlMerge.ts). */
module TomlMerge {
  import opened Core

  // ---- lines -----------------------------------------------------------------------------

  /** `text.split("\n")`. */
  function Split(text: string): (lines: seq<string>)
    ensures lines != []
  {
    if text == "" then [""]
    else
      var rest := Split(text[1..]);
      if text[0] == '\n' then [""] + rest else [[text[0]] + rest[0]] + rest[1..]
  }

  /** `lines.join("\n")`. */
  function Join(lines: seq<string>): string {
    if lines == [] then "" else if |lines| == 1 then lines[0] else lines[0] + "\n" + Join(lines[1..])
  }

  /** `text.replace(/\r\n/g, "\n")`. */
  function DropCr(text: string): string {
    if text == "" then ""
    else if |text| >= 2 && text[0] == '\r' && text[1] == '\n' then "\n" + DropCr(text[2..])
    else [text[0]] + DropCr(text[1..])
  }

  /** `text.replace(/\n{3,}/g, "\n\n")`, after `run` newlines. */
  function Collapse(text: string, run: nat): string {
    if text == "" then ""
    else if text[0] == '\n' then (if run < 2 then "\n" else "") + Collapse(text[1..], if run < 2 then run + 1 else 2)
    else [text[0]] + Collapse(text[1..], 0)
  }

  predicate OneLine(s: string) {
    '\n' !in s
  }

  predicate AllOneLine(lines: seq<string>) {
    forall i :: 0 <= i < |lines| ==> OneLine(lines[i])
  }

  // ---- what a line is --------------------------------------------------------------------

  /** `/^\s*\[/`. */
  predicate IsHeader(line: string) {
    var t := TrimStart(line);
    t != "" && t[0] == '['
  }

  function Squeezed(s: string): string {
    if s == "" then "" else (if IsSpace(s[0]) then "" else [s[0]]) + Squeezed(s[1..])
  }

  predicate OwnHeader(line: string, key: string) {
    && IsHeader(line)
    && (Squeezed(line) == "[model_providers." + key + "]" || "[model_providers." + key + "." <= Squeezed(line))
  }

  predicate Assigns(line: string, key: string) {
    var t := TrimStart(line);
    key <= t && "=" <= TrimStart(t[|key|..])
  }

  predicate ManagedLine(line: string) {
    Assigns(line, "model") || Assigns(line, "model_provider")
    || Assigns(line, "model_context_window") || Assigns(line, "model_max_output_tokens")
  }

  // ---- the passes ------------------------------------------------------------------------

  function DropLead(lines: seq<string>): seq<string> {
    if lines != [] && IsBlank(lines[0]) then DropLead(lines[1..]) else lines
  }

  function DropTail(lines: seq<string>): seq<string> {
    if lines != [] && IsBlank(lines[|lines| - 1]) then DropTail(lines[..|lines| - 1]) else lines
  }

  function TrimBlankEdges(lines: seq<string>): seq<string> {
    DropTail(DropLead(lines))
  }

  /** The last table header at or before line i, or -1. */
  function NearestHeader(lines: seq<string>, i: int): (h: int)
    requires -1 <= i < |lines|
    ensures -1 <= h <= i
    ensures h >= 0 ==> IsHeader(lines[h])
    ensures forall k :: h < k <= i ==> !IsHeader(lines[k])
    decreases i + 1
  {
    if i < 0 || IsHeader(lines[i]) then i else NearestHeader(lines, i - 1)
  }

  /** Line i belongs to our own provider table or one of its subtables. */
  predicate InOwnTable(lines: seq<string>, key: string, i: int)
    requires -1 <= i < |lines|
  {
    var h := NearestHeader(lines, i);
    h >= 0 && OwnHeader(lines[h], key)
  }

  /** The first n lines, without those of our own table. */
  function OutsideOwn(lines: seq<string>, key: string, n: nat): seq<string>
    requires n <= |lines|
  {
    if n == 0 then []
    else OutsideOwn(lines, key, n - 1) + (if InOwnTable(lines, key, n - 1) then [] else [lines[n - 1]])
  }

  function RemoveProviderTable(lines: seq<string>, key: string): seq<string> {
    OutsideOwn(lines, key, |lines|)
  }

  function Unmanaged(lines: seq<string>): seq<string> {
    if lines == [] then []
    else Unmanaged(lines[..|lines| - 1]) + (if ManagedLine(lines[|lines| - 1]) then [] else [lines[|lines| - 1]])
  }

  function FirstHeader(lines: seq<string>): (n: nat)
    ensures n <= |lines|
    ensures forall i :: 0 <= i < n ==> !IsHeader(lines[i])
    ensures n < |lines| ==> IsHeader(lines[n])
  {
    if lines == [] || IsHeader(lines[0]) then 0 else 1 + FirstHeader(lines[1..])
  }

  /** User lines kept from the root section, and from the tables. */
  function KeptRoot(lines: seq<string>): seq<string> {
    TrimBlankEdges(Unmanaged(lines[..FirstHeader(lines)]))
  }

  function KeptSections(lines: seq<string>, key: string): seq<string> {
    TrimBlankEdges(RemoveProviderTable(lines[FirstHeader(lines)..], key))
  }

  datatype Patch = Patch(
    model: string,
    modelProvider: string,
    contextWindow: Option<nat>,
    maxOutputTokens: Option<nat>,
    providerKey: string,
    providerBlock: string)

  function Setting(key: string, value: string): string {
    key + (" = " + value)
  }

  function Quoted(s: string): string {
    "\"" + s + "\""
  }

  function Tuning(key: string, value: Option<nat>): seq<string> {
    if value.Some? then [Setting(key, Decimal(value.value))] else []
  }

  function ManagedBlock(p: Patch): seq<string> {
    [Setting("model", Quoted(p.model)), Setting("model_provider", Quoted(p.modelProvider))]
    + Tuning("model_context_window", p.contextWindow)
    + Tuning("model_max_output_tokens", p.maxOutputTokens)
  }

  function BlockLines(p: Patch): seq<string> {
    Split(TrimEnd(p.providerBlock))
  }

  /** Lines under a blank separator, when there are any. */
  function Under(lines: seq<string>): seq<string> {
    if lines == [] then [] else [""] + lines
  }

  function Laid(managed: seq<string>, root: seq<string>, sections: seq<string>, block: seq<string>): seq<string> {
    managed + Under(root) + Under(sections) + [""] + block
  }

  function Merge(existing: Option<string>, p: Patch): string {
    if existing.None? || IsBlank(existing.value) then
      Join(ManagedBlock(p) + [""] + BlockLines(p)) + "\n"
    else
      var lines := Split(DropCr(existing.value));
      var laid := Laid(ManagedBlock(p), KeptRoot(lines), KeptSections(lines, p.providerKey), BlockLines(p));
      TrimEnd(Collapse(Join(laid), 0)) + "\n"
  }

  // ---- the passes as written -------------------------------------------------------------

  lemma {:induction false} LeadStep(lines: seq<string>, start: nat)
    requires start < |lines|
    ensures DropLead(lines[start..]) == if IsBlank(lines[start]) then DropLead(lines[start + 1..]) else lines[start..]
  {
    assert lines[start..][1..] == lines[start + 1..];
  }

  lemma {:induction false} TailStep(lines: seq<string>, start: nat, end: nat)
    requires start < end <= |lines|
    ensures DropTail(lines[start..end])
         == if IsBlank(lines[end - 1]) then DropTail(lines[start..end - 1]) else lines[start..end]
  {
    assert lines[start..end][..end - start - 1] == lines[start..end - 1];
  }

  method TrimEdges(lines: seq<string>) returns (out: seq<string>)
    ensures out == TrimBlankEdges(lines)
  {
    var start, end := 0, |lines|;
    assert lines[0..] == lines;
    while start < end && Trim(lines[start]) == ""
      invariant 0 <= start <= |lines| == end
      invariant DropLead(lines[start..]) == DropLead(lines)
    {
      TrimBlank(lines[start]);
      LeadStep(lines, start);
      start := start + 1;
    }
    if start < end {
      TrimBlank(lines[start]);
      LeadStep(lines, start);
    }
    assert DropLead(lines) == lines[start..end];
    out := TrimTail(lines, start);
  }

  method TrimTail(lines: seq<string>, start: nat) returns (out: seq<string>)
    requires start <= |lines|
    ensures out == DropTail(lines[start..])
  {
    var end := |lines|;
    assert lines[start..end] == lines[start..];
    while end > start && Trim(lines[end - 1]) == ""
      invariant start <= end <= |lines|
      invariant DropTail(lines[start..end]) == DropTail(lines[start..])
    {
      TrimBlank(lines[end - 1]);
      TailStep(lines, start, end);
      end := end - 1;
    }
    if end > start {
      TrimBlank(lines[end - 1]);
      TailStep(lines, start, end);
    }
    out := lines[start..end];
  }

  method RemoveTable(lines: seq<string>, key: string) returns (out: seq<string>)
    ensures out == RemoveProviderTable(lines, key)
  {
    out := [];
    var skipping := false;
    for i := 0 to |lines|
      invariant out == OutsideOwn(lines, key, i)
      invariant skipping == InOwnTable(lines, key, i - 1)
    {
      if IsHeader(lines[i]) {
        var norm := Squeezed(lines[i]);
        skipping := norm == "[model_providers." + key + "]" || "[model_providers." + key + "." <= norm;
      }
      if !skipping {
        out := out + [lines[i]];
      }
    }
  }

  method FilterRoot(lines: seq<string>) returns (out: seq<string>)
    ensures out == Unmanaged(lines)
  {
    out := [];
    for i := 0 to |lines|
      invariant out == Unmanaged(lines[..i])
    {
      assert lines[..i + 1][..i] == lines[..i];
      if !ManagedLine(lines[i]) {
        out := out + [lines[i]];
      }
    }
    assert lines[..|lines|] == lines;
  }

  method MergeCodexProviderToml(existing: Option<string>, p: Patch) returns (text: string)
    ensures text == Merge(existing, p)
  {
    var managed := ManagedBlock(p);
    if existing.None? || Trim(existing.value) == "" {
      if existing.Some? { TrimBlank(existing.value); }
      return Join(managed + [""] + BlockLines(p)) + "\n";
    }
    TrimBlank(existing.value);
    var lines := Split(DropCr(existing.value));
    var firstHeader := FirstHeader(lines);
    var root := FilterRoot(lines[..firstHeader]);
    var keptRoot := TrimEdges(root);
    var sections := RemoveTable(lines[firstHeader..], p.providerKey);
    var cleanedSections := TrimEdges(sections);
    var out := managed;
    if |keptRoot| > 0 {
      out := out + ([""] + keptRoot);
    }
    if |cleanedSections| > 0 {
      out := out + ([""] + cleanedSections);
    }
    out := out + [""] + BlockLines(p);
    assert out == Laid(managed, keptRoot, cleanedSections, BlockLines(p));
    text := TrimEnd(Collapse(Join(out), 0)) + "\n";
  }
}
