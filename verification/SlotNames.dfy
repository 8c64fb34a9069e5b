// Names of adapter slots and of the LoRA parameters that carry them
// (src/tuft/backends/fsdp_training_backend.py).
module SlotNames {

  // ---------- Dotted paths ----------

  predicate NoDot(s: string) {
    '.' !in s
  }

  function Split(s: string): (parts: seq<string>)
    ensures parts != []
  {
    if s == "" then [""] else Push(s[0], Split(s[1..]))
  }

  function Push(c: char, parts: seq<string>): seq<string>
    requires parts != []
  {
    if c == '.' then [""] + parts else [[c] + parts[0]] + parts[1..]
  }

  function Join(parts: seq<string>): string
    requires parts != []
  {
    if |parts| == 1 then parts[0] else parts[0] + "." + Join(parts[1..])
  }

  lemma {:induction false} JoinSplit(s: string)
    ensures Join(Split(s)) == s
  {
    if s != "" {
      JoinSplit(s[1..]);
      var rest := Split(s[1..]);
      if s[0] == '.' {
        assert ([""] + rest)[1..] == rest;
      } else {
        assert Split(s)[1..] == rest[1..];
      }
    }
  }

  lemma {:induction false} SplitPlain(s: string)
    requires NoDot(s)
    ensures Split(s) == [s]
  {
    if s != "" {
      assert s[0] in s;
      assert forall c :: c in s[1..] ==> c in s;
      SplitPlain(s[1..]);
      assert [s[0]] + s[1..] == s;
    }
  }

  lemma {:induction false} SplitAppend(s: string, t: string)
    ensures Split(s + "." + t) == Split(s) + Split(t)
  {
    if s == "" {
      assert s + "." + t == "." + t && ("." + t)[1..] == t;
    } else {
      SplitAppend(s[1..], t);
      assert (s + "." + t)[1..] == s[1..] + "." + t;
      PushAppend(s[0], Split(s[1..]), Split(t));
    }
  }

  lemma PushAppend(c: char, p: seq<string>, q: seq<string>)
    requires p != []
    ensures Push(c, p + q) == Push(c, p) + q
  {
    assert (p + q)[1..] == p[1..] + q;
  }

  lemma {:induction false} SplitJoin(parts: seq<string>)
    requires parts != [] && forall i :: 0 <= i < |parts| ==> NoDot(parts[i])
    ensures Split(Join(parts)) == parts
  {
    SplitPlain(parts[0]);
    if |parts| > 1 {
      SplitJoin(parts[1..]);
      SplitAppend(parts[0], Join(parts[1..]));
    }
  }

  lemma {:induction false} SplitPartsPlain(s: string)
    ensures forall i :: 0 <= i < |Split(s)| ==> NoDot(Split(s)[i])
  {
    if s != "" {
      SplitPartsPlain(s[1..]);
    }
  }

  // ---------- The substring test `.name.` ----------

  predicate StartsWith(s: string, t: string) {
    |t| <= |s| && s[..|t|] == t
  }

  // Python's `t in s`.
  predicate Contains(s: string, t: string) {
    StartsWith(s, t) || (s != "" && Contains(s[1..], t))
  }

  lemma {:induction false} ContainsIsOccurrence(s: string, t: string)
    ensures Contains(s, t) <==> exists i :: 0 <= i <= |s| && StartsWith(s[i..], t)
  {
    assert s[0..] == s;
    if s != "" {
      ContainsIsOccurrence(s[1..], t);
      assert forall i :: 0 <= i < |s| ==> s[1..][i..] == s[i + 1..];
      if i :| 0 <= i <= |s| && StartsWith(s[i..], t) {
        if i > 0 {
          assert StartsWith(s[1..][i - 1..], t);
        }
      }
    } else {
      assert forall i :: 0 <= i <= |s| ==> s[i..] == s;
    }
  }

  predicate Mentions(s: string, name: string) {
    Contains(s, "." + name + ".")
  }

  // name is a component of the path other than the first and the last.
  ghost predicate Interior(parts: seq<string>, name: string) {
    exists i :: 0 < i < |parts| - 1 && parts[i] == name
  }

  lemma {:induction false} StartsIsFirst(s: string, name: string)
    requires NoDot(name)
    ensures StartsWith(s, name + ".") <==> |Split(s)| >= 2 && Split(s)[0] == name
  {
    if s == "" {
    } else if s[0] == '.' {
      if name == "" {
        assert s[..1] == ".";
      } else {
        assert name[0] in name;
        StartsFirst(s, name + ".");
      }
    } else if name == "" {
    } else {
      assert forall c :: c in name[1..] ==> c in name;
      StartsIsFirst(s[1..], name[1..]);
      StartsTail(s, name);
      var rest := Split(s[1..]);
      assert Split(s)[0] == [s[0]] + rest[0];
      if Split(s)[0] == name {
        assert rest[0] == name[1..];
      }
      if s[0] == name[0] && rest[0] == name[1..] {
        assert name == [name[0]] + name[1..];
      }
    }
  }

  lemma StartsFirst(s: string, t: string)
    requires t != ""
    ensures StartsWith(s, t) ==> s != "" && s[0] == t[0]
  {
    if StartsWith(s, t) {
      assert s[..|t|][0] == s[0];
    }
  }

  lemma StartsTail(s: string, name: string)
    requires s != "" && name != ""
    ensures StartsWith(s, name + ".") <==> s[0] == name[0] && StartsWith(s[1..], name[1..] + ".")
  {
    var t := name + ".";
    assert t[1..] == name[1..] + ".";
    if StartsWith(s, t) {
      assert s[0] == s[..|t|][0] && s[1..][..|t| - 1] == s[..|t|][1..];
    }
    if s[0] == name[0] && StartsWith(s[1..], name[1..] + ".") {
      assert s[..|t|] == [s[0]] + s[1..][..|t| - 1];
    }
  }

  // The substring test finds a dot-free name exactly when it is an interior component.
  lemma {:induction false} MentionsIsInterior(s: string, name: string)
    requires NoDot(name)
    ensures Mentions(s, name) <==> Interior(Split(s), name)
  {
    var t := "." + name + ".";
    if s != "" {
      var rest := Split(s[1..]);
      MentionsIsInterior(s[1..], name);
      if s[0] == '.' {
        StartsIsFirst(s[1..], name);
        StartsDot(s, name);
        InteriorCons("", rest, name);
      } else {
        InteriorHead([s[0]] + rest[0], rest, name);
      }
    }
  }

  lemma StartsDot(s: string, name: string)
    requires s != "" && s[0] == '.'
    ensures StartsWith(s, "." + name + ".") <==> StartsWith(s[1..], name + ".")
  {
    var t := name + ".";
    assert "." + name + "." == "." + t;
    if StartsWith(s, "." + t) {
      assert s[1..][..|t|] == s[..|t| + 1][1..];
    }
    if StartsWith(s[1..], t) {
      assert s[..|t| + 1] == "." + s[1..][..|t|];
    }
  }

  lemma InteriorCons(first: string, rest: seq<string>, name: string)
    requires rest != []
    ensures Interior([first] + rest, name) <==> (|rest| >= 2 && rest[0] == name) || Interior(rest, name)
  {
    var all := [first] + rest;
    if Interior(rest, name) {
      var i :| 0 < i < |rest| - 1 && rest[i] == name;
      assert all[i + 1] == name;
    }
    if |rest| >= 2 && rest[0] == name {
      assert all[1] == name;
    }
    if Interior(all, name) {
      var i :| 0 < i < |all| - 1 && all[i] == name;
      assert rest[i - 1] == name;
    }
  }

  lemma InteriorHead(first: string, rest: seq<string>, name: string)
    requires rest != []
    ensures Interior([first] + rest[1..], name) <==> Interior(rest, name)
  {
    var all := [first] + rest[1..];
    assert forall i :: 0 < i < |rest| ==> all[i] == rest[i];
  }

  // ---------- LoRA parameter names ----------

  datatype Half = A | B

  function HalfName(h: Half): string {
    if h.A? then "lora_A" else "lora_B"
  }

  // '<layer>.lora_A.<slot>.weight'
  function LoraName(layer: string, h: Half, slot: string): string {
    layer + "." + (HalfName(h) + "." + (slot + "." + "weight"))
  }

  lemma LoraParts(layer: string, h: Half, slot: string)
    requires NoDot(slot)
    ensures Split(LoraName(layer, h, slot)) == Split(layer) + [HalfName(h), slot, "weight"]
  {
    var tail := slot + "." + "weight";
    SplitAppend(slot, "weight");
    SplitPlain(slot);
    SplitPlain("weight");
    assert Split(tail) == [slot, "weight"];
    HalfPlain(h);
    SplitAppend(HalfName(h), tail);
    assert Split(HalfName(h) + "." + tail) == [HalfName(h), slot, "weight"];
    SplitAppend(layer, HalfName(h) + "." + tail);
  }

  lemma HalfPlain(h: Half)
    ensures Split(HalfName(h)) == [HalfName(h)] && NoDot(HalfName(h))
  {
    SplitPlain(HalfName(h));
  }

  // No later component of the path is a slot name or a LoRA half.
  ghost predicate Clean(path: string) {
    forall i :: 1 <= i < |Split(path)| ==> !IsAdapterName(Split(path)[i]) && Split(path)[i] !in {"lora_A", "lora_B"}
  }

  ghost predicate IsAdapterName(s: string) {
    exists rank: nat, idx: nat :: s == AdapterName(rank, idx)
  }

  // A slot's parameters are the only ones its `.name.` test selects, and the
  // `.lora_A.` / `.lora_B.` tests tell their halves apart.
  lemma LoraNameMatches(layer: string, h: Half, slot: string, name: string)
    requires Clean(layer) && IsAdapterName(slot) && IsAdapterName(name)
    ensures Mentions(LoraName(layer, h, slot), name) <==> name == slot
    ensures Mentions(LoraName(layer, h, slot), "lora_A") <==> h == A
    ensures Mentions(LoraName(layer, h, slot), "lora_B") <==> h == B
  {
    AdapterNamesPlain(slot);
    AdapterNamesPlain(name);
    var key := LoraName(layer, h, slot);
    var parts := Split(layer) + [HalfName(h), slot, "weight"];
    LoraParts(layer, h, slot);
    MentionsIsInterior(key, name);
    MentionsIsInterior(key, "lora_A");
    MentionsIsInterior(key, "lora_B");
    var n := |Split(layer)|;
    assert parts[n] == HalfName(h) && parts[n + 1] == slot;
    assert forall i :: 0 <= i < n ==> parts[i] == Split(layer)[i];
  }

  lemma AdapterNamesPlain(name: string)
    requires IsAdapterName(name)
    ensures NoDot(name) && name !in {"", "lora_A", "lora_B"}
  {
    var rank: nat, idx: nat :| name == AdapterName(rank, idx);
    AdapterNamePlain(rank, idx);
  }

  lemma {:induction false} LoraNameInjective(l1: string, h1: Half, s1: string, l2: string, h2: Half, s2: string)
    requires NoDot(s1) && NoDot(s2)
    requires LoraName(l1, h1, s1) == LoraName(l2, h2, s2)
    ensures l1 == l2 && h1 == h2 && s1 == s2
  {
    LoraParts(l1, h1, s1);
    LoraParts(l2, h2, s2);
    var p, q := Split(l1) + [HalfName(h1), s1, "weight"], Split(l2) + [HalfName(h2), s2, "weight"];
    var n := |Split(l1)|;
    assert p == q && |Split(l2)| == n;
    assert p[n + 1] == q[n + 1] && p[n] == q[n];
    assert p[..n] == Split(l1) && q[..n] == Split(l2);
    JoinSplit(l1);
    JoinSplit(l2);
  }

  // ---------- _canonical_lora_key ----------

  predicate Stripped(parts: seq<string>) {
    var n := |parts|;
    n >= 4 && parts[n - 1] == "weight" && parts[n - 2] != "" && parts[n - 3] in ["lora_A", "lora_B"]
  }

  // The substitution on a key without its final newline: drop the component before "weight".
  function StripSlot(key: string): string {
    var parts := Split(key);
    if Stripped(parts) then Join(parts[..|parts| - 2] + ["weight"]) else key
  }

  // `$` also matches just before a final newline.
  function Canonical(key: string): string {
    if key != "" && key[|key| - 1] == '\n' then StripSlot(key[..|key| - 1]) + "\n" else StripSlot(key)
  }

  // A key the expression \.lora_(A|B)\.[^.]+\.weight matches at its end is cut as the
  // replacement says; any other key is left alone.
  lemma StripIsSubstitution(key: string)
    ensures (exists layer: string, h: Half, slot: string :: slot != "" && NoDot(slot) && key == LoraName(layer, h, slot))
              <==> Stripped(Split(key))
    ensures forall layer: string, h: Half, slot: string :: slot != "" && NoDot(slot) && key == LoraName(layer, h, slot) ==>
                    StripSlot(key) == layer + "." + HalfName(h) + "." + "weight"
    ensures !Stripped(Split(key)) ==> StripSlot(key) == key
  {
    forall layer: string, h: Half, slot: string | slot != "" && NoDot(slot) && key == LoraName(layer, h, slot)
      ensures Stripped(Split(key)) && StripSlot(key) == layer + "." + HalfName(h) + "." + "weight"
    {
      StripLora(layer, h, slot);
    }
    if Stripped(Split(key)) {
      var layer, h, slot := MatchedName(key);
    }
  }

  lemma StripLora(layer: string, h: Half, slot: string)
    requires slot != "" && NoDot(slot)
    ensures Stripped(Split(LoraName(layer, h, slot)))
    ensures StripSlot(LoraName(layer, h, slot)) == layer + "." + HalfName(h) + "." + "weight"
  {
    LoraParts(layer, h, slot);
    var parts := Split(LoraName(layer, h, slot));
    assert parts[..|parts| - 2] == Split(layer) + [HalfName(h)];
    ShortParts(layer, h);
    JoinSplit(layer + "." + HalfName(h) + "." + "weight");
    assert parts[..|parts| - 2] + ["weight"] == Split(layer + "." + HalfName(h) + "." + "weight");
  }

  lemma ShortParts(layer: string, h: Half)
    ensures Split(layer + "." + HalfName(h) + "." + "weight") == Split(layer) + [HalfName(h), "weight"]
  {
    SplitAppend(layer + "." + HalfName(h), "weight");
    SplitAppend(layer, HalfName(h));
    HalfPlain(h);
    SplitPlain("weight");
  }

  lemma MatchedName(key: string) returns (layer: string, h: Half, slot: string)
    requires Stripped(Split(key))
    ensures slot != "" && NoDot(slot) && key == LoraName(layer, h, slot)
  {
    var parts := Split(key);
    var n := |parts|;
    layer, h, slot := Join(parts[..n - 3]), if parts[n - 3] == "lora_A" then A else B, parts[n - 2];
    SplitPartsPlain(key);
    SplitJoin(parts[..n - 3]);
    LoraParts(layer, h, slot);
    assert Split(LoraName(layer, h, slot)) == parts;
    JoinSplit(key);
    JoinSplit(LoraName(layer, h, slot));
  }

  // Stripping twice changes nothing more, unless the two components before the
  // slot are both LoRA halves: then the inner half is taken for a slot name.
  predicate DoubledHalf(key: string) {
    var parts := Split(key);
    Stripped(parts) && |parts| >= 5 && parts[|parts| - 4] in ["lora_A", "lora_B"]
  }

  predicate DoubledKey(key: string) {
    if key != "" && key[|key| - 1] == '\n' then DoubledHalf(key[..|key| - 1]) else DoubledHalf(key)
  }

  lemma StripParts(key: string)
    requires Stripped(Split(key))
    ensures Split(StripSlot(key)) == Split(key)[..|Split(key)| - 2] + ["weight"]
  {
    var once := Split(key)[..|Split(key)| - 2] + ["weight"];
    SplitPartsPlain(key);
    forall i | 0 <= i < |once|
      ensures NoDot(once[i])
    {
    }
    SplitJoin(once);
  }

  lemma StripTwice(key: string)
    ensures StripSlot(StripSlot(key)) == StripSlot(key) <==> !DoubledHalf(key)
  {
    if Stripped(Split(key)) {
      var once := StripSlot(key);
      StripParts(key);
      if Stripped(Split(once)) {
        StripParts(once);
        assert |Split(StripSlot(once))| != |Split(once)|;
      }
    }
  }

  lemma CanonicalIdempotentExactlyUnlessDoubled(key: string)
    ensures Canonical(Canonical(key)) == Canonical(key) <==> !DoubledKey(key)
  {
    if key != "" && key[|key| - 1] == '\n' {
      var body := key[..|key| - 1];
      StripTwice(body);
      var c := Canonical(key);
      assert c[..|c| - 1] == StripSlot(body);
      assert StripSlot(StripSlot(body)) + "\n" == StripSlot(body) + "\n" <==> StripSlot(StripSlot(body)) == StripSlot(body) by {
        var x, y := StripSlot(StripSlot(body)), StripSlot(body);
        assert (x + "\n")[..|x|] == x && (y + "\n")[..|y|] == y;
      }
    } else {
      StripTwice(key);
      StripKeepsEnd(key);
    }
  }

  lemma StripKeepsEnd(key: string)
    requires key == "" || key[|key| - 1] != '\n'
    ensures StripSlot(key) == "" || StripSlot(key)[|StripSlot(key)| - 1] != '\n'
  {
    if Stripped(Split(key)) {
      var layer, h, slot := MatchedName(key);
      StripLora(layer, h, slot);
      var s := layer + "." + HalfName(h) + "." + "weight";
      assert s[|s| - 1] == "weight"[5];
    }
  }

  // The canonical key of a slot's parameter does not depend on the slot, and
  // tells the slot's parameters apart.
  lemma CanonicalForgetsSlot(layer: string, h: Half, s1: string, s2: string)
    requires s1 != "" && NoDot(s1) && s2 != "" && NoDot(s2)
    ensures Canonical(LoraName(layer, h, s1)) == Canonical(LoraName(layer, h, s2))
  {
    CanonicalLora(layer, h, s1);
    CanonicalLora(layer, h, s2);
  }

  lemma CanonicalLora(layer: string, h: Half, slot: string)
    requires slot != "" && NoDot(slot)
    ensures Canonical(LoraName(layer, h, slot)) == layer + "." + HalfName(h) + "." + "weight"
  {
    StripLora(layer, h, slot);
    var key := LoraName(layer, h, slot);
    assert key[|key| - 1] == "weight"[5];
  }

  lemma CanonicalInjectivePerSlot(l1: string, h1: Half, l2: string, h2: Half, slot: string)
    requires slot != "" && NoDot(slot)
    requires Canonical(LoraName(l1, h1, slot)) == Canonical(LoraName(l2, h2, slot))
    ensures l1 == l2 && h1 == h2
  {
    CanonicalLora(l1, h1, slot);
    CanonicalLora(l2, h2, slot);
    ShortParts(l1, h1);
    ShortParts(l2, h2);
    var p, q := Split(l1) + [HalfName(h1), "weight"], Split(l2) + [HalfName(h2), "weight"];
    var n := |Split(l1)|;
    assert p == q && |Split(l2)| == n;
    assert p[n] == q[n] && p[..n] == Split(l1) && q[..n] == Split(l2);
    JoinSplit(l1);
    JoinSplit(l2);
  }

  // ---------- _generate_adapter_name ----------

  function Digit(d: nat): char
    requires d < 10
  {
    ('0' as int + d) as char
  }

  function Decimal(n: nat): string {
    if n < 10 then [Digit(n)] else Decimal(n / 10) + [Digit(n % 10)]
  }

  function AdapterName(rank: nat, idx: nat): string {
    "adapter_r" + Decimal(rank) + "_" + Decimal(idx)
  }

  predicate IsDigits(s: string) {
    forall i :: 0 <= i < |s| ==> '0' <= s[i] <= '9'
  }

  lemma AdapterNameExample()
    ensures AdapterName(8, 12) == "adapter_r8_12"
  {
    assert Decimal(12) == Decimal(1) + [Digit(2)];
  }

  lemma {:induction false} DecimalDigits(n: nat)
    ensures IsDigits(Decimal(n)) && Decimal(n) != ""
  {
    if n >= 10 {
      DecimalDigits(n / 10);
    }
  }

  lemma {:induction false} DecimalInjective(m: nat, n: nat)
    requires Decimal(m) == Decimal(n)
    ensures m == n
  {
    DecimalEnds(m);
    DecimalEnds(n);
    if m >= 10 && n >= 10 {
      DecimalInjective(m / 10, n / 10);
    }
  }

  lemma DecimalEnds(n: nat)
    ensures Decimal(n) != "" && Decimal(n)[|Decimal(n)| - 1] == Digit(n % 10)
    ensures n >= 10 ==> Decimal(n)[..|Decimal(n)| - 1] == Decimal(n / 10) && |Decimal(n)| >= 2
    ensures n < 10 ==> |Decimal(n)| == 1
  {
    DecimalDigits(n / 10);
  }

  lemma AdapterNamePlain(rank: nat, idx: nat)
    ensures NoDot(AdapterName(rank, idx)) && AdapterName(rank, idx) !in {"", "lora_A", "lora_B"}
  {
    DecimalDigits(rank);
    DecimalDigits(idx);
    assert AdapterName(rank, idx)[0] == 'a';
  }

  // No two slots share a name, within a rank or across ranks.
  lemma AdapterNameInjective(r1: nat, i1: nat, r2: nat, i2: nat)
    requires AdapterName(r1, i1) == AdapterName(r2, i2)
    ensures r1 == r2 && i1 == i2
  {
    DecimalDigits(r1);
    DecimalDigits(r2);
    var pre := "adapter_r";
    var a, b, c, d := Decimal(r1), Decimal(i1), Decimal(r2), Decimal(i2);
    var s, t := a + "_" + b, c + "_" + d;
    assert AdapterName(r1, i1) == pre + s && AdapterName(r2, i2) == pre + t;
    assert (pre + s)[|pre|..] == s && (pre + t)[|pre|..] == t;
    FirstUnderscore(a, b, c, d);
    DecimalInjective(r1, r2);
    DecimalInjective(i1, i2);
  }

  lemma FirstUnderscore(a: string, b: string, c: string, d: string)
    requires IsDigits(a) && IsDigits(c) && a + "_" + b == c + "_" + d
    ensures a == c && b == d
  {
    var s := a + "_" + b;
    assert s[|a|] == '_' && s[|c|] == '_';
    if |a| < |c| {
      assert false;
    } else if |c| < |a| {
      assert false;
    } else {
      assert s[..|a|] == a && s[..|c|] == c;
      assert s[|a| + 1..] == b && s[|c| + 1..] == d;
    }
  }
}
