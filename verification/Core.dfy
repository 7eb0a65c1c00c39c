/** Vocabulary shared by every component: optional values and strings. */
module Core {

  datatype Option<+T> = None | Some(value: T)

  /** JavaScript's `parts.join("")`. */
  function Concat(parts: seq<string>): string {
    if parts == [] then "" else parts[0] + Concat(parts[1..])
  }

  /** `texts.join("\n\n")`. */
  function Paragraphs(texts: seq<string>): string {
    if texts == [] then "" else if |texts| == 1 then texts[0]
    else texts[0] + "\n\n" + Paragraphs(texts[1..])
  }

  lemma {:induction false} ConcatAppend(a: seq<string>, b: seq<string>)
    ensures Concat(a + b) == Concat(a) + Concat(b)
  {
    if a == [] {
      assert a + b == b;
    } else {
      assert (a + b)[1..] == a[1..] + b;
      ConcatAppend(a[1..], b);
    }
  }

  lemma {:induction false} Regroup<T>(a: seq<T>, b: seq<T>, c: seq<T>)
    ensures (a + b) + c == a + (b + c)
  {
  }

  lemma {:induction false} EmptyEnds<T>(a: seq<T>)
    ensures a + [] == a && [] + a == a
  {
  }

  lemma {:induction false} ConcatSnoc(a: seq<string>, s: string)
    ensures Concat(a + [s]) == Concat(a) + s
  {
    ConcatAppend(a, [s]);
  }

  /** A number in decimal digits. */
  function Decimal(n: nat): string {
    if n < 10 then ["0123456789"[n]] else Decimal(n / 10) + ["0123456789"[n % 10]]
  }

  /** The characters `String.prototype.trim` removes; `\s` matches the same set. */
  predicate IsSpace(c: char) {
    c == ' ' || c == '\t' || c == '\n' || c == '\r' || c == 0x0B as char || c == 0x0C as char
    || c == 0xA0 as char || c == 0x1680 as char || 0x2000 as char <= c <= 0x200A as char
    || c == 0x2028 as char || c == 0x2029 as char || c == 0x202F as char
    || c == 0x205F as char || c == 0x3000 as char || c == 0xFEFF as char
  }

  function TrimStart(s: string): string {
    if s != "" && IsSpace(s[0]) then TrimStart(s[1..]) else s
  }

  function TrimEnd(s: string): string {
    if s != "" && IsSpace(s[|s| - 1]) then TrimEnd(s[..|s| - 1]) else s
  }

  function Trim(s: string): string {
    TrimEnd(TrimStart(s))
  }

  predicate IsBlank(s: string) {
    forall i :: 0 <= i < |s| ==> IsSpace(s[i])
  }

  lemma {:induction false} TrimStartBlank(s: string)
    ensures TrimStart(s) == "" <==> IsBlank(s)
    ensures TrimStart(s) != "" ==> !IsSpace(TrimStart(s)[0])
  {
    if s != "" && IsSpace(s[0]) {
      TrimStartBlank(s[1..]);
      assert IsBlank(s) <==> IsBlank(s[1..]) by {
        if IsBlank(s[1..]) {
          forall i | 0 <= i < |s| ensures IsSpace(s[i]) {
            if i > 0 { assert s[i] == s[1..][i - 1]; }
          }
        }
      }
    }
  }

  lemma {:induction false} TrimEndBlank(s: string)
    ensures TrimEnd(s) == "" <==> IsBlank(s)
    ensures TrimEnd(s) <= s
    ensures TrimEnd(s) != "" ==> !IsSpace(TrimEnd(s)[|TrimEnd(s)| - 1])
  {
    if s != "" && IsSpace(s[|s| - 1]) {
      var init := s[..|s| - 1];
      TrimEndBlank(init);
      assert IsBlank(s) <==> IsBlank(init) by {
        if IsBlank(init) {
          forall i | 0 <= i < |s| ensures IsSpace(s[i]) {
            if i < |init| { assert s[i] == init[i]; }
          }
        }
      }
    }
  }

  /** `s.trim() === ""` means that s holds nothing but white space. */
  lemma {:induction false} TrimBlank(s: string)
    ensures Trim(s) == "" <==> IsBlank(s)
  {
    TrimStartBlank(s);
    TrimEndBlank(TrimStart(s));
    if TrimStart(s) != "" {
      assert !IsBlank(TrimStart(s));
    }
  }

  lemma {:induction false} StartParts(s: string) returns (w: string)
    ensures s == w + TrimStart(s) && IsBlank(w)
  {
    if s != "" && IsSpace(s[0]) {
      var rest := StartParts(s[1..]);
      w := [s[0]] + rest;
    } else {
      w := "";
    }
  }

  lemma {:induction false} EndParts(s: string) returns (w: string)
    ensures s == TrimEnd(s) + w && IsBlank(w)
  {
    if s != "" && IsSpace(s[|s| - 1]) {
      var rest := EndParts(s[..|s| - 1]);
      w := rest + [s[|s| - 1]];
    } else {
      w := "";
    }
  }

  /** Trimming takes white space from both ends and leaves none there. */
  lemma {:induction false} TrimParts(s: string) returns (w: string, v: string)
    ensures s == w + Trim(s) + v && IsBlank(w) && IsBlank(v)
    ensures Trim(s) != "" ==> !IsSpace(Trim(s)[0]) && !IsSpace(Trim(s)[|Trim(s)| - 1])
  {
    w := StartParts(s);
    v := EndParts(TrimStart(s));
    TrimStartBlank(s);
    TrimEndBlank(TrimStart(s));
    Regroup(w, Trim(s), v);
  }

  /** A paragraph more stands after a blank line. */
  lemma {:induction false} ParagraphsSnoc(texts: seq<string>, s: string)
    ensures Paragraphs(texts + [s]) == if texts == [] then s else Paragraphs(texts) + "\n\n" + s
  {
    if texts == [] {
      assert texts + [s] == [s];
    } else {
      assert (texts + [s])[1..] == texts[1..] + [s];
      ParagraphsSnoc(texts[1..], s);
      if |texts| > 1 { Regroup(texts[0] + "\n\n", Paragraphs(texts[1..]), "\n\n" + s); }
    }
  }
}
