/**
 * The camel-case / snake-case name converter the generator uses for field
 * storage keys and accessor names (Symfony's
 * CamelCaseToSnakeCaseNameConverter, built with no attribute list and
 * lower-camel-case output). Its code is not part of this model; the two
 * directions are reconstructed here as specification functions:
 *
 *   normalize:   lcfirst, then every upper-case letter becomes `_` followed
 *                by its lower-case form;
 *   denormalize: every match of `(^|_)+(.)` is replaced by the upper-case
 *                form of the matched character, then lcfirst.
 */
module NameConverter {
  import opened Text

  /** Every upper-case letter becomes `_` and its lower-case form. */
  function Snake(s: string): (r: string)
    ensures NoUpper(r)
    ensures |r| >= |s|
  {
    if s == [] then []
    else (if IsUpper(s[0]) then ['_', LowerChar(s[0])] else [s[0]]) + Snake(s[1..])
  }

  /** `normalize`: camel case to snake case. */
  function Normalize(name: string): (r: string)
    ensures NoUpper(r)
  {
    Snake(LcFirst(name))
  }

  /** `_` occurs in `s` at most as its last character. */
  predicate SeparatorOnlyLast(s: string) {
    forall i :: 0 <= i < |s| - 1 ==> s[i] != '_'
  }

  /** `_` occurs in `s` at most as its first or its last character. */
  predicate SeparatorOnlyAtEnds(s: string) {
    forall i :: 0 < i < |s| - 1 ==> s[i] != '_'
  }

  /**
   * The replacement of `(^|_)+(.)` past the first character, scanning left
   * to right; `sawSeparator` says that the match in progress has consumed a
   * `_`. The character that closes a match is upper-cased and its `_`s are
   * dropped. A run of `_` at the very end has no character after it; the
   * regular expression then backtracks so that the run's last `_` closes the
   * match, and the run collapses to one `_`.
   */
  function Camel(s: string, sawSeparator: bool): (r: string)
    ensures |r| <= |s| || (s == [] && sawSeparator)
  {
    if s == [] then (if sawSeparator then "_" else [])
    else if s[0] == '_' then Camel(s[1..], true)
    else [if sawSeparator then UpperChar(s[0]) else s[0]] + Camel(s[1..], false)
  }

  /**
   * `denormalize`: snake case to lower camel case. At the first position `^`
   * matches the empty string, which ends the `(^|_)+` loop, so the first
   * match is the first character alone, a leading `_` included: that `_` is
   * kept, and the scan goes on from the second character.
   */
  function Denormalize(name: string): (r: string)
    ensures |r| <= |name|
    ensures |name| > 0 ==> |r| > 0 && r[0] == LowerChar(UpperChar(name[0]))
  {
    if name == [] then [] else LcFirst([UpperChar(name[0])] + Camel(name[1..], false))
  }

  /** `Camel` drops every `_` but a trailing one. */
  lemma {:induction false} CamelSeparatorOnlyLast(s: string, sawSeparator: bool)
    ensures SeparatorOnlyLast(Camel(s, sawSeparator))
  {
    if s != [] {
      CamelSeparatorOnlyLast(s[1..], s[0] == '_');
      if s[0] != '_' {
        var r := Camel(s, sawSeparator);
        var rest := Camel(s[1..], false);
        assert r == [if sawSeparator then UpperChar(s[0]) else s[0]] + rest;
        forall i | 0 <= i < |r| - 1 ensures r[i] != '_' {
          if i > 0 {
            assert r[i] == rest[i - 1];
          }
        }
      }
    }
  }

  /**
   * The shape of a name `denormalize` returns: `_` only as its first or its
   * last character, and a first letter that is not upper case.
   */
  lemma DenormalizeShape(name: string)
    ensures var r := Denormalize(name); SeparatorOnlyAtEnds(r) && LcFirst(r) == r
  {
    if name != [] {
      var r := Denormalize(name);
      var rest := Camel(name[1..], false);
      CamelSeparatorOnlyLast(name[1..], false);
      assert r == [LowerChar(UpperChar(name[0]))] + rest;
      forall i | 0 < i < |r| - 1 ensures r[i] != '_' {
        assert r[i] == rest[i - 1];
      }
    }
  }

  /** `Camel` past a `_` that precedes another character. */
  lemma CamelAfterSeparator(c: char, rest: string, sawSeparator: bool)
    requires c != '_'
    ensures Camel(['_', c] + rest, sawSeparator) == [UpperChar(c)] + Camel(rest, false)
  {
    var s := ['_', c] + rest;
    assert s[1..] == [c] + rest;
    assert ([c] + rest)[1..] == rest;
  }

  /** `Camel` over an ordinary character. */
  lemma CamelPlain(c: char, rest: string, sawSeparator: bool)
    requires c != '_'
    ensures Camel([c] + rest, sawSeparator)
         == [if sawSeparator then UpperChar(c) else c] + Camel(rest, false)
  {
    assert ([c] + rest)[1..] == rest;
  }

  lemma SnakeCons(c: char, rest: string)
    ensures Snake([c] + rest)
         == (if IsUpper(c) then ['_', LowerChar(c)] else [c]) + Snake(rest)
  {
    assert ([c] + rest)[1..] == rest;
  }

  /** A first character that is not upper case comes back from `denormalize` as it is. */
  lemma FirstKept(c: char)
    requires !IsUpper(c)
    ensures LowerChar(UpperChar(c)) == c
  {
    CaseRoundTrip(c);
  }

  /** Snake case of a name without `_` reads back as the same name. */
  lemma {:induction false} CamelOfSnake(s: string)
    requires '_' !in s
    ensures Camel(Snake(s), false) == s
  {
    if s != [] {
      var t := s[1..];
      assert s == [s[0]] + t;
      assert '_' !in t by { assert forall c :: c in t ==> c in s; }
      CamelOfSnake(t);
      CaseRoundTrip(s[0]);
      SnakeCons(s[0], t);
      if IsUpper(s[0]) {
        assert Snake(s) == ['_', LowerChar(s[0])] + Snake(t);
        CamelAfterSeparator(LowerChar(s[0]), Snake(t), false);
      } else {
        assert s[0] != '_' by { assert s[0] in s; }
        CamelPlain(s[0], Snake(t), false);
      }
    }
  }

  /**
   * Round trip: a name with no `_` comes back from `denormalize(normalize(x))`
   * unchanged except that its first letter is lower case.
   */
  lemma RoundTrip(name: string)
    requires '_' !in name
    ensures Denormalize(Normalize(name)) == LcFirst(name)
  {
    if name != [] {
      var lc := LowerChar(name[0]);
      var t := name[1..];
      assert LcFirst(name) == [lc] + t;
      assert '_' !in t by { assert forall c :: c in t ==> c in name; }
      CamelOfSnake(t);
      SnakeCons(lc, t);
      assert Normalize(name) == [lc] + Snake(t);
      assert Normalize(name)[1..] == Snake(t);
      FirstKept(lc);
    }
  }

  /** Normalising an already normalised name changes nothing. */
  lemma {:induction false} SnakeOfLower(s: string)
    requires NoUpper(s)
    ensures Snake(s) == s
  {
    if s != [] {
      SnakeOfLower(s[1..]);
    }
  }

  lemma NormalizeIdempotent(name: string)
    ensures Normalize(Normalize(name)) == Normalize(name)
  {
    var n := Normalize(name);
    assert LcFirst(n) == n;
    SnakeOfLower(n);
  }

  /** `Camel` outside a match passes over a part without `_` unchanged. */
  lemma {:induction false} CamelOverPlain(p: string, tail: string)
    requires '_' !in p
    ensures Camel(p + tail, false) == p + Camel(tail, false)
  {
    if p == [] {
      assert p + tail == tail;
    } else {
      assert p[0] != '_' by { assert p[0] in p; }
      assert '_' !in p[1..] by { assert forall c :: c in p[1..] ==> c in p; }
      assert (p + tail)[0] == p[0] && (p + tail)[1..] == p[1..] + tail;
      CamelOverPlain(p[1..], tail);
      assert [p[0]] + (p[1..] + Camel(tail, false)) == p + Camel(tail, false);
    }
  }

  /** After a `_`, a normalised camel-case name reads back with an upper-case first letter. */
  lemma CamelOfSeparatedName(name: string)
    requires name != [] && '_' !in name
    ensures Camel("_" + Normalize(name), false) == UcFirst(name)
  {
    var t := name[1..];
    assert '_' !in t by { assert forall c :: c in t ==> c in name; }
    var lc := LowerChar(name[0]);
    assert LcFirst(name) == [lc] + t;
    SnakeCons(lc, t);
    assert "_" + Normalize(name) == ['_', lc] + Snake(t);
    CamelOfSnake(t);
    CamelAfterSeparator(lc, Snake(t), false);
    CaseRoundTrip(name[0]);
  }

  /**
   * The accessor name built from `prefix + "_" + normalize(x)` for a non-empty
   * camel-case `x` is the prefix followed by `x` with its first letter in upper
   * case: `get_` + `normalize("orderTotal")` gives `getOrderTotal`.
   */
  lemma AccessorOfCamelName(prefix: string, name: string)
    requires prefix != [] && '_' !in prefix && !IsUpper(prefix[0])
    requires name != [] && '_' !in name
    ensures Denormalize(prefix + "_" + Normalize(name)) == prefix + UcFirst(name)
  {
    var tail := "_" + Normalize(name);
    assert prefix + "_" + Normalize(name) == prefix + tail;
    DenormalizeAfterPlain(prefix, tail);
    CamelOfSeparatedName(name);
  }

  /** `denormalize` keeps the first character and scans the rest. */
  lemma DenormalizeCons(c: char, rest: string)
    ensures Denormalize([c] + rest) == [LowerChar(UpperChar(c))] + Camel(rest, false)
  {
    assert ([c] + rest)[0] == c && ([c] + rest)[1..] == rest;
  }

  /** A non-empty string followed by another is its first character followed by the rest. */
  lemma ConsAppend(s: string, t: string)
    requires s != []
    ensures s + t == [s[0]] + (s[1..] + t)
  {
  }

  /** A plain prefix that starts in lower case survives `denormalize` as it is. */
  lemma DenormalizeAfterPlain(prefix: string, tail: string)
    requires prefix != [] && '_' !in prefix && !IsUpper(prefix[0])
    ensures Denormalize(prefix + tail) == prefix + Camel(tail, false)
  {
    var c, p := prefix[0], prefix[1..];
    assert '_' !in p by { assert forall x :: x in p ==> x in prefix; }
    ConsAppend(prefix, tail);
    DenormalizeCons(c, p + tail);
    CamelOverPlain(p, tail);
    FirstKept(c);
    ConsAppend(prefix, Camel(tail, false));
  }

  /**
   * `denormalize` keeps a leading `_`, as the regular expression does:
   * `_ab` stays `_ab`, `__ab` becomes `_Ab`, `__` stays `__`, and `a__`
   * becomes `a_`.
   */
  lemma LeadingSeparatorKept()
    ensures Denormalize("_ab") == "_ab" && Denormalize("__ab") == "_Ab"
    ensures Denormalize("__") == "__" && Denormalize("a__") == "a_"
  {
    assert "_ab"[1..] == "ab" && "__ab"[1..] == "_ab";
    assert "__"[1..] == "_" && "a__"[1..] == "__";
  }

  /** Snake case of a name whose only `_` is its last character reads back as the same name. */
  lemma {:induction false} CamelOfSnakeTrailing(s: string)
    requires SeparatorOnlyLast(s)
    ensures Camel(Snake(s), false) == s
  {
    if s != [] {
      var t := s[1..];
      assert s == [s[0]] + t;
      assert SeparatorOnlyLast(t) by {
        forall i | 0 <= i < |t| - 1 ensures t[i] != '_' {
          assert t[i] == s[i + 1];
        }
      }
      if s[0] == '_' {
        assert t == [];
        assert Snake(s) == "_";
      } else {
        CamelOfSnakeTrailing(t);
        CaseRoundTrip(s[0]);
        SnakeCons(s[0], t);
        if IsUpper(s[0]) {
          CamelAfterSeparator(LowerChar(s[0]), Snake(t), false);
        } else {
          CamelPlain(s[0], Snake(t), false);
        }
      }
    }
  }

  /**
   * A name of the shape `denormalize` returns (`_` only at its ends, first
   * letter not upper case) comes back unchanged from `denormalize(normalize(·))`.
   */
  lemma DenormalizeNormalizeFixes(z: string)
    requires SeparatorOnlyAtEnds(z) && LcFirst(z) == z
    ensures Denormalize(Normalize(z)) == z
  {
    if z != [] {
      var c := z[0];
      var t := z[1..];
      assert z == [c] + t;
      assert !IsUpper(c);
      assert SeparatorOnlyLast(t) by {
        forall i | 0 <= i < |t| - 1 ensures t[i] != '_' {
          assert t[i] == z[i + 1];
        }
      }
      SnakeCons(c, t);
      assert Normalize(z) == [c] + Snake(t);
      assert Normalize(z)[1..] == Snake(t);
      CamelOfSnakeTrailing(t);
      FirstKept(c);
    }
  }

  /**
   * `denormalize(normalize(·))` is stable: applying it to its own result
   * changes nothing, even for names with `_` (`a_b__` gives `aB_` both times).
   */
  lemma DenormalizeNormalizeStable(name: string)
    ensures var once := Denormalize(Normalize(name));
      Denormalize(Normalize(once)) == once
  {
    DenormalizeShape(Normalize(name));
    DenormalizeNormalizeFixes(Denormalize(Normalize(name)));
  }
}
