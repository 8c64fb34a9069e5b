// How a name becomes part of a store key: build_key joins its parts by "::" and writes
// "__SEP__" for every "::" inside a part (src/tuft/persistence/redis_store.py).
module StoreKeys {
  import opened SlotNames

  const Separator: string := "::"
  const Mark: string := "__SEP__"

  // p.replace("::", "__SEP__"), from left to right.
  function Escape(s: string): string {
    if StartsWith(s, Separator) then Mark + Escape(s[2..])
    else if s == "" then ""
    else [s[0]] + Escape(s[1..])
  }

  lemma AtSeparator(s: string)
    ensures StartsWith(s, Separator) <==> |s| >= 2 && s[0] == ':' && s[1] == ':'
  {
    if |s| >= 2 {
      assert s[..2] == [s[0], s[1]];
    }
  }

  lemma {:induction false} EscapeGrows(s: string)
    ensures |Escape(s)| >= |s|
    ensures Contains(s, Separator) ==> |Escape(s)| > |s|
    ensures !Contains(s, Separator) ==> Escape(s) == s
  {
    if StartsWith(s, Separator) {
      EscapeGrows(s[2..]);
    } else if s != "" {
      EscapeGrows(s[1..]);
    }
  }

  lemma EscapeFixedExactly(s: string)
    ensures Escape(s) == s <==> !Contains(s, Separator)
  {
    EscapeGrows(s);
  }

  lemma {:induction false} ContainsAfter(p: string, t: string)
    requires ':' !in p
    ensures Contains(p + t, Separator) <==> Contains(t, Separator)
  {
    if p == "" {
      assert p + t == t;
    } else {
      assert p[0] in p && forall c :: c in p[1..] ==> c in p;
      assert (p + t)[1..] == p[1..] + t;
      ContainsAfter(p[1..], t);
    }
  }

  // An escaped part holds no separator, so it is its own escape.
  lemma {:induction false} EscapeLeavesNoSeparator(s: string)
    ensures !Contains(Escape(s), Separator) && Escape(Escape(s)) == Escape(s)
  {
    if StartsWith(s, Separator) {
      EscapeLeavesNoSeparator(s[2..]);
      ContainsAfter(Mark, Escape(s[2..]));
    } else if s != "" {
      EscapeLeavesNoSeparator(s[1..]);
      AtSeparator(s);
      AtSeparator(Escape(s));
      assert Escape(s)[1..] == Escape(s[1..]);
    }
    EscapeGrows(Escape(s));
  }

  predicate EndsInColon(s: string) {
    s != "" && s[|s| - 1] == ':'
  }

  // The first separator is the one replaced first.
  lemma {:induction false} EscapeAtSeparator(u: string, v: string)
    requires !Contains(u, Separator) && !EndsInColon(u)
    ensures Escape(u + Separator + v) == u + Mark + Escape(v)
  {
    var s := u + Separator + v;
    if u == "" {
      assert s[2..] == v;
    } else {
      AtSeparator(s);
      AtSeparator(u);
      assert s[1..] == u[1..] + Separator + v;
      EscapeAtSeparator(u[1..], v);
    }
  }

  lemma {:induction false} FirstSeparator(s: string) returns (u: string, v: string)
    requires Contains(s, Separator)
    ensures s == u + Separator + v && !Contains(u, Separator) && !EndsInColon(u)
  {
    if StartsWith(s, Separator) {
      u, v := "", s[2..];
    } else {
      u, v := FirstSeparator(s[1..]);
      AtSeparator(s);
      AtSeparator([s[0]] + u);
      assert ([s[0]] + u)[1..] == u;
      u := [s[0]] + u;
    }
  }

  // The mark occurs where an escaped separator could stand.
  ghost predicate Marked(s: string) {
    exists i :: MarkedAt(s, i)
  }

  ghost predicate MarkedAt(s: string, i: nat) {
    i <= |s| && StartsWith(s[i..], Mark) && !EndsInColon(s[..i])
  }

  // Some other name has the same key exactly when the name holds a separator or the
  // mark of one, other than right after a colon.
  lemma SharesKeyExactly(name: string)
    ensures (exists other :: other != name && Escape(other) == Escape(name)) <==> Contains(name, Separator) || Marked(name)
  {
    EscapeFixedExactly(name);
    if Contains(name, Separator) {
      EscapeLeavesNoSeparator(name);
    } else {
      if i: nat :| MarkedAt(name, i) {
        MarkIsShared(name, i);
      }
      if other :| other != name && Escape(other) == name {
        SharedIsMarked(name, other);
      }
    }
  }

  lemma MarkIsShared(name: string, i: nat)
    requires !Contains(name, Separator) && MarkedAt(name, i)
    ensures exists other :: other != name && Escape(other) == name
  {
    var u, v := name[..i], name[i + |Mark|..];
    assert name == u + Mark + v by {
      assert name[i..][..|Mark|] == Mark;
    }
    PartsHoldNoSeparator(name, i);
    PartsHoldNoSeparator(name, i + |Mark|);
    EscapeFixedExactly(v);
    EscapeAtSeparator(u, v);
    Longer(u, v);
  }

  lemma Longer(u: string, v: string)
    ensures u + Separator + v != u + Mark + v
  {
    assert |u + Separator + v| < |u + Mark + v|;
  }

  lemma SharedIsMarked(name: string, other: string)
    requires other != name && Escape(other) == name
    ensures Marked(name)
  {
    EscapeFixedExactly(other);
    var u, v := FirstSeparator(other);
    EscapeAtSeparator(u, v);
    assert name[..|u|] == u && name[|u|..] == Mark + Escape(v);
    assert MarkedAt(name, |u|);
  }

  lemma {:induction false} PartsHoldNoSeparator(s: string, i: nat)
    requires !Contains(s, Separator) && i <= |s|
    ensures !Contains(s[..i], Separator) && !Contains(s[i..], Separator)
  {
    if i == 0 {
      assert s[0..] == s;
    } else {
      PartsHoldNoSeparator(s[1..], i - 1);
      assert s[..i][1..] == s[1..][..i - 1] && s[i..] == s[1..][i - 1..];
      AtSeparator(s);
      AtSeparator(s[..i]);
    }
  }

  // Two names with one key.
  lemma TwoNamesOneKey()
    ensures "a::b" != "a__SEP__b" && Escape("a::b") == Escape("a__SEP__b")
  {
    assert "a::b" == "a" + Separator + "b" && "a__SEP__b" == "a" + Mark + "b";
    assert !Contains("a", Separator) && !Contains("b", Separator);
    EscapeAtSeparator("a", "b");
    EscapeFixedExactly("b");
    EscapeLeavesNoSeparator("a::b");
  }

  // Without these characters there is nothing to escape, and no other name has the key.
  lemma PlainNameOwnsKey(name: string, other: string)
    requires ':' !in name && '_' !in name && Escape(other) == Escape(name)
    ensures other == name
  {
    assert name + "" == name;
    ContainsAfter(name, "");
    EscapeFixedExactly(name);
    assert !Marked(name) by {
      forall i: nat
        ensures !MarkedAt(name, i)
      {
        if i + |Mark| <= |name| {
          assert name[i..][..|Mark|][0] == name[i];
        }
      }
    }
    SharesKeyExactly(name);
  }
}
