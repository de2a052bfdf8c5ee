/** The deterministic names of a relation's objects, and why no two relations can be mixed up. */
module Identity {
  import opened Text
  import opened Reconciler
  import opened Ownership

  // ---- Decimal numbers ------------------------------------------------------------------

  function Digit(n: nat): char
    requires n < 10
  {
    ('0' as int + n) as char
  }

  function Decimal(n: nat): string {
    if n < 10 then [Digit(n)] else Decimal(n / 10) + [Digit(n % 10)]
  }

  predicate IsNumber(s: string) { s != "" && forall i :: 0 <= i < |s| ==> '0' <= s[i] <= '9' }

  function Parse(s: string): nat
    requires IsNumber(s)
  {
    var last := s[|s| - 1] as int - '0' as int;
    if |s| == 1 then last else Parse(s[..|s| - 1]) * 10 + last
  }

  /** A cache key as the garbage collector reads it. */
  function KeyOf(text: string): Key { if IsNumber(text) then Rel(Parse(text)) else Malformed(text) }

  /** The key under which a relation's entry is stored is read back as that relation. */
  lemma {:induction false} KeyRoundTrip(n: nat)
    ensures IsNumber(Decimal(n)) && Parse(Decimal(n)) == n
    ensures KeyOf(Decimal(n)) == Rel(n)
  {
    if n >= 10 {
      KeyRoundTrip(n / 10);
      var d := Decimal(n);
      assert d[..|d| - 1] == Decimal(n / 10);
    }
  }

  lemma DecimalInjective(n: nat, m: nat)
    requires Decimal(n) == Decimal(m)
    ensures n == m
  {
    KeyRoundTrip(n);
    KeyRoundTrip(m);
  }

  // ---- Slugs ----------------------------------------------------------------------------

  predicate IsWord(c: char) { 'a' <= c <= 'z' || '0' <= c <= '9' || c == '_' }

  /** Lower case, and a hyphen for everything a slug may not contain. */
  function CleanChar(c: char): char {
    var l := if 'A' <= c <= 'Z' then (c as int + 32) as char else c;
    if IsWord(l) || l == '-' then l else '-'
  }

  function CleanChars(s: string): (r: string)
    ensures |r| == |s|
  {
    if s == "" then "" else [CleanChar(s[0])] + CleanChars(s[1..])
  }

  /** Every run of hyphens becomes one. */
  function Collapse(s: string): string {
    if |s| < 2 then s
    else if s[0] == '-' && s[1] == '-' then Collapse(s[1..])
    else [s[0]] + Collapse(s[1..])
  }

  function StripLeft(s: string): string { if s != "" && s[0] == '-' then StripLeft(s[1..]) else s }

  function StripRight(s: string): string { if s != "" && s[|s| - 1] == '-' then StripRight(s[..|s| - 1]) else s }

  function CleanSlug(name: string): string { StripRight(StripLeft(Collapse(CleanChars(name)))) }

  ghost predicate SlugChars(s: string) { forall c :: c in s ==> IsWord(c) || c == '-' }

  ghost predicate Single(s: string) { forall i :: 0 <= i < |s| - 1 ==> s[i] != '-' || s[i + 1] != '-' }

  /** Only word characters and hyphens, none of them doubled, leading or trailing. */
  ghost predicate IsClean(s: string) {
    SlugChars(s) && Single(s) && (s != "" ==> s[0] != '-' && s[|s| - 1] != '-')
  }

  /** What remains of a text when all hyphens are dropped. */
  function Word(s: string): string {
    if s == "" then "" else (if s[0] == '-' then "" else [s[0]]) + Word(s[1..])
  }

  lemma {:induction false} WordAppend(a: string, b: string)
    ensures Word(a + b) == Word(a) + Word(b)
  {
    if a == "" {
      assert a + b == b;
    } else {
      assert (a + b)[1..] == a[1..] + b;
      WordAppend(a[1..], b);
    }
  }

  lemma {:induction false} CleanCharsOutcome(s: string)
    ensures SlugChars(CleanChars(s))
    ensures SlugChars(s) ==> CleanChars(s) == s
  {
    if s != "" {
      CleanCharsOutcome(s[1..]);
      assert s == [s[0]] + s[1..] && s[0] in s;
    }
  }

  lemma SingleSlice(s: string, lo: nat, hi: nat)
    requires lo <= hi <= |s| && Single(s)
    ensures Single(s[lo..hi])
  {
    var t := s[lo..hi];
    forall i | 0 <= i < |t| - 1 ensures t[i] != '-' || t[i + 1] != '-' {
      assert s[lo + i] != '-' || s[(lo + i) + 1] != '-';
    }
  }

  lemma {:induction false} CollapseOutcome(s: string)
    requires SlugChars(s)
    ensures var r := Collapse(s); SlugChars(r) && Single(r) && Word(r) == Word(s)
    ensures s != "" ==> Collapse(s) != "" && Collapse(s)[0] == s[0]
    ensures Single(s) ==> Collapse(s) == s
  {
    if |s| >= 2 {
      assert s == [s[0]] + s[1..] && s[0] in s;
      CollapseOutcome(s[1..]);
      assert Single(s) ==> !(s[0] == '-' && s[0 + 1] == '-');
      if Single(s) {
        SingleSlice(s, 1, |s|);
      }
    }
  }

  lemma {:induction false} StripLeftOutcome(s: string)
    requires SlugChars(s) && Single(s)
    ensures var r := StripLeft(s); SlugChars(r) && Single(r) && Word(r) == Word(s) && (r != "" ==> r[0] != '-')
  {
    if s != "" && s[0] == '-' {
      SingleSlice(s, 1, |s|);
      StripLeftOutcome(s[1..]);
    }
  }

  lemma {:induction false} StripRightOutcome(s: string)
    requires SlugChars(s) && Single(s) && (s != "" ==> s[0] != '-')
    ensures IsClean(StripRight(s)) && Word(StripRight(s)) == Word(s)
  {
    if s != "" && s[|s| - 1] == '-' {
      var t := s[..|s| - 1];
      SingleSlice(s, 0, |s| - 1);
      StripRightOutcome(t);
      assert s == t + ['-'];
      WordAppend(t, ['-']);
    }
  }

  /** The result is always clean, keeps every word character in order, and clean names stay. */
  lemma CleanSlugOutcome(name: string)
    ensures IsClean(CleanSlug(name))
    ensures Word(CleanSlug(name)) == Word(CleanChars(name))
    ensures CleanSlug(name) == name <==> IsClean(name)
  {
    var s := CleanChars(name);
    CleanCharsOutcome(name);
    CollapseOutcome(s);
    StripLeftOutcome(Collapse(s));
    StripRightOutcome(StripLeft(Collapse(s)));
  }

  /** The word characters of a name in lower case, in order. */
  function WordChars(name: string): string {
    if name == "" then ""
    else
      var c := name[0];
      var kept := if 'A' <= c <= 'Z' then [('a' as int + (c as int - 'A' as int)) as char]
                  else if 'a' <= c <= 'z' || '0' <= c <= '9' || c == '_' then [c]
                  else "";
      kept + WordChars(name[1..])
  }

  lemma {:induction false} CleanCharsWords(name: string)
    ensures Word(CleanChars(name)) == WordChars(name)
  {
    if name != "" {
      CleanCharsWords(name[1..]);
      assert CleanChars(name)[1..] == CleanChars(name[1..]);
    }
  }

  /** Without its hyphens a slug is exactly the word characters of the name, in lower case. */
  lemma SlugWords(name: string)
    ensures Word(CleanSlug(name)) == WordChars(name)
  {
    CleanSlugOutcome(name);
    CleanCharsWords(name);
  }

  lemma CleanSlugIdempotent(name: string)
    ensures CleanSlug(CleanSlug(name)) == CleanSlug(name)
  {
    CleanSlugOutcome(name);
    CleanSlugOutcome(CleanSlug(name));
  }

  // ---- Names ----------------------------------------------------------------------------

  function ManagedIdentifier(model: string, id: nat): string { "juju-" + model + "-oauth" + ['-'] + Decimal(id) }

  function LegacySlug(app: string, id: nat): string { CleanSlug(app) + ['-'] + Decimal(id) }

  function ProviderName(model: string, app: string, id: nat): string {
    ManagedIdentifier(model, id) + [' '] + "(" + app + ")"
  }

  function LegacyProviderName(app: string, id: nat): string { app + [' '] + "(Relation " + Decimal(id) + ")" }

  function NamesOf(model: string, app: string, id: nat): Names {
    Names(ManagedIdentifier(model, id), LegacySlug(app, id), ProviderName(model, app, id), LegacyProviderName(app, id))
  }

  lemma DecimalPlain(n: nat)
    ensures '-' !in Decimal(n) && ' ' !in Decimal(n)
  {
    KeyRoundTrip(n);
  }

  /** Slugs of different relations differ, in every mix of managed and legacy. */
  lemma SlugsApart(left: string, i: nat, right: string, j: nat)
    requires left + ['-'] + Decimal(i) == right + ['-'] + Decimal(j)
    ensures i == j
  {
    DecimalPlain(i);
    DecimalPlain(j);
    SplitLast('-', left, Decimal(i), right, Decimal(j));
    DecimalInjective(i, j);
  }

  lemma ManagedPlain(model: string, id: nat)
    requires ' ' !in model
    ensures ' ' !in ManagedIdentifier(model, id)
  {
    DecimalPlain(id);
  }

  lemma ManagedNamesApart(model: string, a: string, i: nat, b: string, j: nat)
    requires ' ' !in model
    requires ProviderName(model, a, i) == ProviderName(model, b, j)
    ensures i == j
  {
    ManagedPlain(model, i);
    ManagedPlain(model, j);
    assert ProviderName(model, a, i) == ManagedIdentifier(model, i) + [' '] + ("(" + a + ")");
    assert ProviderName(model, b, j) == ManagedIdentifier(model, j) + [' '] + ("(" + b + ")");
    SplitFirst(' ', ManagedIdentifier(model, i), "(" + a + ")", ManagedIdentifier(model, j), "(" + b + ")");
    SlugsApart("juju-" + model + "-oauth", i, "juju-" + model + "-oauth", j);
  }

  lemma LegacyNamesApart(a: string, i: nat, b: string, j: nat)
    requires ' ' !in a && ' ' !in b
    requires LegacyProviderName(a, i) == LegacyProviderName(b, j)
    ensures i == j
  {
    var x, y := "(Relation " + Decimal(i) + ")", "(Relation " + Decimal(j) + ")";
    assert LegacyProviderName(a, i) == a + [' '] + x && LegacyProviderName(b, j) == b + [' '] + y;
    SplitFirst(' ', a, x, b, y);
    assert x[10..|x| - 1] == Decimal(i) && y[10..|y| - 1] == Decimal(j);
    DecimalInjective(i, j);
  }

  /** No managed name is a legacy name: what is in parentheses has a space in one case only. */
  lemma MixedNamesApart(model: string, a: string, i: nat, b: string, j: nat)
    requires ' ' !in model && ' ' !in a && ' ' !in b
    ensures ProviderName(model, a, i) != LegacyProviderName(b, j)
  {
    var m := ManagedIdentifier(model, i);
    ManagedPlain(model, i);
    var x, y := "(" + a + ")", "(Relation " + Decimal(j) + ")";
    assert ProviderName(model, a, i) == m + [' '] + x && LegacyProviderName(b, j) == b + [' '] + y;
    assert y[9] == ' ';
    assert ' ' !in x;
    if m + [' '] + x == b + [' '] + y {
      SplitFirst(' ', m, x, b, y);
      assert false;
    }
  }

  /**
   The identities of all relations are separated, for any model identity and any application
   names without spaces: this is what every result about ownership rests on.
   */
  lemma IdentitiesSeparated(model: string, apps: nat -> string)
    requires ' ' !in model && forall r: nat :: ' ' !in apps(r)
    ensures Separated((r: nat) => NamesOf(model, apps(r), r))
  {
    var ids := (r: nat) => NamesOf(model, apps(r), r);
    forall r: nat, q: nat | r != q ensures Apart(ids(r), ids(q)) {
      NamesApart(model, apps(r), r, apps(q), q);
    }
  }

  lemma NamesApart(model: string, a: string, i: nat, b: string, j: nat)
    requires ' ' !in model && ' ' !in a && ' ' !in b && i != j
    ensures Apart(NamesOf(model, a, i), NamesOf(model, b, j))
  {
    var stem := "juju-" + model + "-oauth";
    if ManagedIdentifier(model, i) == ManagedIdentifier(model, j) { SlugsApart(stem, i, stem, j); }
    if ManagedIdentifier(model, i) == LegacySlug(b, j) { SlugsApart(stem, i, CleanSlug(b), j); }
    if LegacySlug(a, i) == ManagedIdentifier(model, j) { SlugsApart(CleanSlug(a), i, stem, j); }
    if LegacySlug(a, i) == LegacySlug(b, j) { SlugsApart(CleanSlug(a), i, CleanSlug(b), j); }
    if ProviderName(model, a, i) == ProviderName(model, b, j) { ManagedNamesApart(model, a, i, b, j); }
    if LegacyProviderName(a, i) == LegacyProviderName(b, j) { LegacyNamesApart(a, i, b, j); }
    MixedNamesApart(model, a, i, b, j);
    MixedNamesApart(model, b, j, a, i);
  }
}
