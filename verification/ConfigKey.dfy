/**
 The canonical text of a client configuration, whose SHA-256 digest decides whether a relation
 is already synchronized.
 */
module ConfigKey {
  import opened Text

  /** SHA-256, taken as injective. */
  datatype Digest = Sha256(text: string)

  /** What a provider is to look like: stripped URIs and grant types, canonical scopes. */
  datatype Want = Want(
    uris: seq<string>,
    authorization: string,
    invalidation: string,
    scopes: seq<string>,
    grants: seq<string>)

  // ---- Text -----------------------------------------------------------------------------

  predicate IsSpace(c: char) { c in " \t\n\r\U{0B}\U{0C}\U{1C}\U{1D}\U{1E}\U{1F}" }

  function StripLeft(s: string): (r: string) {
    if s != "" && IsSpace(s[0]) then StripLeft(s[1..]) else s
  }

  function StripRight(s: string): (r: string) {
    if s != "" && IsSpace(s[|s| - 1]) then StripRight(s[..|s| - 1]) else s
  }

  function Strip(s: string): string { StripRight(StripLeft(s)) }

  /** The stripped items that are not empty, in their order. */
  function Stripped(items: seq<string>): (r: seq<string>)
    ensures "" !in r
  {
    if items == [] then []
    else (if Strip(items[0]) != "" then [Strip(items[0])] else []) + Stripped(items[1..])
  }

  function LowerChar(c: char): char {
    if 'A' <= c <= 'Z' then (c as int + 32) as char else c
  }

  function Lower(s: string): string { seq(|s|, i requires 0 <= i < |s| => LowerChar(s[i])) }

  /** Splitting at white space; `word` is the word being read. */
  function Words(s: string, word: string): (r: seq<string>)
    ensures "" !in r
  {
    var done := if word == "" then [] else [word];
    if s == "" then done
    else if IsSpace(s[0]) then done + Words(s[1..], "")
    else Words(s[1..], word + [s[0]])
  }

  function LowerAll(words: seq<string>): (r: seq<string>)
    ensures |r| == |words|
  {
    if words == [] then [] else [Lower(words[0])] + LowerAll(words[1..])
  }

  /** The requested scopes in canonical form; a request without scopes means the default three. */
  function Scopes(raw: string): seq<string> {
    var words := Words(raw, "");
    SortedSet(LowerAll(if words == [] then ["openid", "email", "profile"] else words))
  }

  // ---- Sorted sets of strings -----------------------------------------------------------

  /** Python's order on strings. */
  predicate Less(a: string, b: string) {
    if b == "" then false
    else if a == "" then true
    else a[0] < b[0] || (a[0] == b[0] && Less(a[1..], b[1..]))
  }

  function Insert(x: string, sorted: seq<string>): seq<string> {
    if sorted == [] then [x]
    else if x == sorted[0] then sorted
    else if Less(x, sorted[0]) then [x] + sorted
    else [sorted[0]] + Insert(x, sorted[1..])
  }

  /** `sorted(set(items))` */
  function SortedSet(items: seq<string>): seq<string> {
    if items == [] then [] else Insert(items[0], SortedSet(items[1..]))
  }

  ghost predicate Ascending(s: seq<string>) {
    forall i, j :: 0 <= i < j < |s| ==> Less(s[i], s[j])
  }

  ghost function Elements(s: seq<string>): set<string> { set x | x in s }

  lemma LessTransitive(a: string, b: string, c: string)
    requires Less(a, b) && Less(b, c)
    ensures Less(a, c)
  {}

  lemma LessTotal(a: string, b: string)
    ensures Less(a, b) || Less(b, a) || a == b
    ensures !(Less(a, b) && Less(b, a)) && !Less(a, a)
  {
    if a != "" && b != "" && a[0] == b[0] {
      LessTotal(a[1..], b[1..]);
      assert a == [a[0]] + a[1..] && b == [b[0]] + b[1..];
    }
    LessIrreflexive(a);
    if Less(a, b) && Less(b, a) {
      LessTransitive(a, b, a);
    }
  }

  lemma LessIrreflexive(a: string)
    ensures !Less(a, a)
  {}

  lemma InsertElements(x: string, s: seq<string>)
    ensures Elements(Insert(x, s)) == Elements(s) + {x}
  {
    if s != [] && x != s[0] && !Less(x, s[0]) {
      InsertElements(x, s[1..]);
      assert s == [s[0]] + s[1..];
      ConsElements(s[0], s[1..]);
      ConsElements(s[0], Insert(x, s[1..]));
    }
  }

  lemma ConsElements(x: string, s: seq<string>)
    ensures Elements([x] + s) == {x} + Elements(s)
  {}

  lemma {:induction false} InsertAscending(x: string, s: seq<string>)
    requires Ascending(s)
    ensures Ascending(Insert(x, s))
  {
    if s == [] || x == s[0] {
    } else if Less(x, s[0]) {
      forall j | 1 <= j < |s| ensures Less(x, s[j]) { LessTransitive(x, s[0], s[j]); }
    } else {
      LessTotal(x, s[0]);
      InsertAscending(x, s[1..]);
      InsertElements(x, s[1..]);
      ConsAscending(s[0], Insert(x, s[1..]));
    }
  }

  lemma ConsAscending(x: string, s: seq<string>)
    requires Ascending(s)
    requires forall y :: y in Elements(s) ==> Less(x, y)
    ensures Ascending([x] + s)
  {
    forall j | 0 <= j < |s| ensures Less(x, s[j]) { assert s[j] in Elements(s); }
  }

  lemma {:induction false} SortedSetCanonical(items: seq<string>)
    ensures Ascending(SortedSet(items))
    ensures Elements(SortedSet(items)) == Elements(items)
  {
    if items != [] {
      SortedSetCanonical(items[1..]);
      InsertAscending(items[0], SortedSet(items[1..]));
      InsertElements(items[0], SortedSet(items[1..]));
      assert items == [items[0]] + items[1..];
    }
  }

  /** An ascending sequence is determined by its elements. */
  lemma {:induction false} AscendingUnique(a: seq<string>, b: seq<string>)
    requires Ascending(a) && Ascending(b) && Elements(a) == Elements(b)
    ensures a == b
  {
    NoElements(a);
    NoElements(b);
    if a != [] {
      assert a[0] in Elements(a) && b[0] in Elements(b);
      assert a[0] == b[0] by {
        LessTotal(a[0], b[0]);
        assert a[0] in b && b[0] in a;
      }
      forall x ensures x in a[1..] <==> x in b[1..] {
        FirstOnlyOnce(a);
        FirstOnlyOnce(b);
        assert x in Elements(a) <==> x in Elements(b);
        assert x in a <==> x == a[0] || x in a[1..];
        assert x in b <==> x == b[0] || x in b[1..];
      }
      AscendingUnique(a[1..], b[1..]);
      assert a == [a[0]] + a[1..] && b == [b[0]] + b[1..];
    }
  }

  lemma NoElements(s: seq<string>)
    ensures Elements(s) == {} <==> s == []
  {
    if s != [] {
      assert s[0] in Elements(s);
    }
  }

  lemma FirstOnlyOnce(a: seq<string>)
    requires a != [] && Ascending(a)
    ensures a[0] !in a[1..]
  {
    if a[0] in a[1..] {
      var i :| 1 <= i < |a| && a[i] == a[0];
      LessIrreflexive(a[0]);
    }
  }

  // ---- Joining --------------------------------------------------------------------------

  function Join(items: seq<string>): string {
    if items == [] then ""
    else if |items| == 1 then items[0]
    else items[0] + "," + Join(items[1..])
  }

  /** A join is empty only for no items, and has a comma only for two or more. */
  lemma JoinShape(items: seq<string>)
    requires Without(',', items) && "" !in items
    ensures Join(items) == "" <==> items == []
    ensures ',' in Join(items) <==> |items| > 1
  {
    if |items| == 1 {
      assert items[0] in items;
    } else if |items| > 1 {
      assert Join(items)[|items[0]|] == ',';
    }
  }

  lemma {:induction false} JoinInjective(a: seq<string>, b: seq<string>)
    requires Without(',', a) && Without(',', b) && "" !in a && "" !in b
    requires Join(a) == Join(b)
    ensures a == b
  {
    JoinShape(a);
    JoinShape(b);
    if |a| > 1 {
      assert a[0] in a && b[0] in b;
      SplitFirst(',', a[0], Join(a[1..]), b[0], Join(b[1..]));
      JoinInjective(a[1..], b[1..]);
      assert a == [a[0]] + a[1..] && b == [b[0]] + b[1..];
    }
  }

  lemma {:induction false} JoinWithout(c: char, items: seq<string>)
    requires Without(c, items) && c != ','
    ensures c !in Join(items)
  {
    if |items| > 1 {
      assert items[0] in items;
      JoinWithout(c, items[1..]);
    } else if |items| == 1 {
      assert items[0] in items;
    }
  }

  // ---- The key --------------------------------------------------------------------------

  function Key(w: Want): string {
    Join(SortedSet(w.uris)) + ":" + w.authorization + ":" + w.invalidation + ":"
    + Join(w.scopes) + ":" + Join(SortedSet(w.grants))
  }

  function DigestOf(w: Want): Digest { Sha256(Key(w)) }

  /** No empty items; no comma in a URI; neither comma nor colon anywhere else. */
  ghost predicate Plain(w: Want) {
    && "" !in w.uris && "" !in w.scopes && "" !in w.grants
    && Without(',', w.uris) && Without(',', w.scopes) && Without(',', w.grants)
    && ':' !in w.authorization && ':' !in w.invalidation && Without(':', w.scopes) && Without(':', w.grants)
    && Ascending(w.scopes)
  }

  /** The same client, whatever the order and repetition of URIs and grant types. */
  ghost predicate SameClient(v: Want, w: Want) {
    && Elements(v.uris) == Elements(w.uris)
    && v.authorization == w.authorization && v.invalidation == w.invalidation
    && v.scopes == w.scopes
    && Elements(v.grants) == Elements(w.grants)
  }

  lemma SortedPlain(items: seq<string>, c: char)
    requires Without(c, items) && "" !in items
    ensures Without(c, SortedSet(items)) && "" !in SortedSet(items)
  {
    SortedSetCanonical(items);
    forall x | x in SortedSet(items) ensures x in items { assert x in Elements(SortedSet(items)); }
  }

  /** Two plain configurations have the same key exactly when they describe the same client. */
  lemma KeyIffSameClient(v: Want, w: Want)
    requires Plain(v) && Plain(w)
    ensures Key(v) == Key(w) <==> SameClient(v, w)
  {
    SortedSetCanonical(v.uris);
    SortedSetCanonical(w.uris);
    SortedSetCanonical(v.grants);
    SortedSetCanonical(w.grants);
    if SameClient(v, w) {
      AscendingUnique(SortedSet(v.uris), SortedSet(w.uris));
      AscendingUnique(SortedSet(v.grants), SortedSet(w.grants));
    }
    if Key(v) == Key(w) {
      KeyDetermines(v, w);
    }
  }

  lemma KeyDetermines(v: Want, w: Want)
    requires Plain(v) && Plain(w) && Key(v) == Key(w)
    ensures SortedSet(v.uris) == SortedSet(w.uris) && SortedSet(v.grants) == SortedSet(w.grants)
    ensures v.authorization == w.authorization && v.invalidation == w.invalidation && v.scopes == w.scopes
  {
    var (gv, gw) := (SortedSet(v.grants), SortedSet(w.grants));
    SortedPlain(v.grants, ':');
    SortedPlain(w.grants, ':');
    SortedPlain(v.grants, ',');
    SortedPlain(w.grants, ',');
    SortedPlain(v.uris, ',');
    SortedPlain(w.uris, ',');
    JoinWithout(':', gv);
    JoinWithout(':', gw);
    JoinWithout(':', v.scopes);
    JoinWithout(':', w.scopes);
    var (uv, uw) := (Join(SortedSet(v.uris)), Join(SortedSet(w.uris)));
    var (av, aw) := (uv + ":" + v.authorization, uw + ":" + w.authorization);
    var (iv, iw) := (av + ":" + v.invalidation, aw + ":" + w.invalidation);
    var (sv, sw) := (iv + ":" + Join(v.scopes), iw + ":" + Join(w.scopes));
    assert Key(v) == sv + ":" + Join(gv) && Key(w) == sw + ":" + Join(gw);
    SplitLast(':', sv, Join(gv), sw, Join(gw));
    SplitLast(':', iv, Join(v.scopes), iw, Join(w.scopes));
    SplitLast(':', av, v.invalidation, aw, w.invalidation);
    SplitLast(':', uv, v.authorization, uw, w.authorization);
    JoinInjective(gv, gw);
    JoinInjective(v.scopes, w.scopes);
    JoinInjective(SortedSet(v.uris), SortedSet(w.uris));
  }

  /** Scopes come out ascending and not empty, so only their set matters. */
  lemma ScopesCanonical(raw: string)
    ensures Ascending(Scopes(raw)) && "" !in Scopes(raw)
  {
    var words := Words(raw, "");
    var chosen := if words == [] then ["openid", "email", "profile"] else words;
    LowerKeeps(chosen);
    SortedSetCanonical(LowerAll(chosen));
    assert "" in Scopes(raw) <==> "" in Elements(Scopes(raw));
  }

  lemma LowerKeeps(words: seq<string>)
    requires "" !in words
    ensures "" !in LowerAll(words)
  {
    if words != [] {
      assert |Lower(words[0])| == |words[0]|;
      assert words[0] in words;
    }
  }

  /** The order in which scopes are requested is irrelevant (section 3.3 of RFC 6749). */
  lemma ScopeOrderIrrelevant(a: string, b: string)
    requires Words(a, "") != [] && Words(b, "") != []
    requires Elements(LowerAll(Words(a, ""))) == Elements(LowerAll(Words(b, "")))
    ensures Scopes(a) == Scopes(b)
  {
    SortedSetCanonical(LowerAll(Words(a, "")));
    SortedSetCanonical(LowerAll(Words(b, "")));
    AscendingUnique(Scopes(a), Scopes(b));
  }

  // ---- What the text functions mean -----------------------------------------------------

  ghost predicate Blank(s: string) { forall c :: c in s ==> IsSpace(c) }

  lemma {:induction false} StripLeftOutcome(s: string) returns (before: string)
    ensures s == before + StripLeft(s) && Blank(before)
    ensures StripLeft(s) != "" ==> !IsSpace(StripLeft(s)[0])
  {
    if s != "" && IsSpace(s[0]) {
      var rest := StripLeftOutcome(s[1..]);
      before := [s[0]] + rest;
      assert s == [s[0]] + s[1..];
    } else {
      before := "";
    }
  }

  lemma {:induction false} StripRightOutcome(s: string) returns (after: string)
    ensures s == StripRight(s) + after && Blank(after)
    ensures StripRight(s) != "" ==> !IsSpace(StripRight(s)[|StripRight(s)| - 1]) && StripRight(s)[0] == s[0]
  {
    if s != "" && IsSpace(s[|s| - 1]) {
      var rest := StripRightOutcome(s[..|s| - 1]);
      after := rest + [s[|s| - 1]];
      assert s == s[..|s| - 1] + [s[|s| - 1]];
    } else {
      after := "";
      assert StripRight(s) == s;
    }
  }

  /** Stripping takes away white space at both ends, all of it, and nothing else. */
  lemma StripOutcome(s: string) returns (before: string, after: string)
    ensures s == before + Strip(s) + after && Blank(before) && Blank(after)
    ensures var r := Strip(s); r != "" ==> !IsSpace(r[0]) && !IsSpace(r[|r| - 1])
  {
    before := StripLeftOutcome(s);
    after := StripRightOutcome(StripLeft(s));
  }

  /** Item after item: stripped if something is left, else dropped. */
  lemma {:induction false} StrippedOutcome(a: seq<string>, x: string)
    ensures Stripped(a + [x]) == Stripped(a) + if Strip(x) == "" then [] else [Strip(x)]
  {
    if a == [] {
      assert [] + [x] == [x] && [x][1..] == [];
    } else {
      assert (a + [x])[1..] == a[1..] + [x];
      StrippedOutcome(a[1..], x);
    }
  }

  /** A text without white space, then white space, then more: the word, and the words of the rest. */
  lemma {:induction false} WordsOutcome(read: string, word: string, gap: char, rest: string)
    requires (forall c :: c in word ==> !IsSpace(c)) && IsSpace(gap)
    ensures Words(word, read) == if read + word == "" then [] else [read + word]
    ensures Words(word + [gap] + rest, read) == (if read + word == "" then [] else [read + word]) + Words(rest, "")
    decreases |word|
  {
    if word == "" {
      assert read + word == read;
      assert (word + [gap] + rest)[1..] == rest;
    } else {
      assert word == [word[0]] + word[1..] && word[0] in word;
      assert (word + [gap] + rest)[1..] == word[1..] + [gap] + rest;
      assert (read + [word[0]]) + word[1..] == read + word;
      WordsOutcome(read + [word[0]], word[1..], gap, rest);
    }
  }

  lemma {:induction false} LowerAllOutcome(words: seq<string>)
    ensures forall i :: 0 <= i < |words| ==> LowerAll(words)[i] == Lower(words[i])
  {
    if words != [] {
      LowerAllOutcome(words[1..]);
    }
  }

  lemma LowerOutcome(word: string, i: nat)
    requires i < |word|
    ensures |Lower(word)| == |word|
    ensures 'A' <= word[i] <= 'Z' ==> Lower(word)[i] as int - 'a' as int == word[i] as int - 'A' as int
    ensures !('A' <= word[i] <= 'Z') ==> Lower(word)[i] == word[i]
  {}

  /** The scopes are the words in lower case, or the default three if there is no word. */
  lemma ScopesMeans(raw: string, x: string)
    ensures Words(raw, "") == [] ==> (x in Scopes(raw) <==> x == "openid" || x == "email" || x == "profile")
    ensures Words(raw, "") != [] ==> (x in Scopes(raw) <==> exists word :: word in Words(raw, "") && x == Lower(word))
  {
    var words := Words(raw, "");
    var chosen := if words == [] then ["openid", "email", "profile"] else words;
    LowerAllOutcome(chosen);
    SortedSetCanonical(LowerAll(chosen));
    assert x in Scopes(raw) <==> x in Elements(Scopes(raw));
    assert x in LowerAll(chosen) <==> x in Elements(LowerAll(chosen));
    if words == [] {
      assert Lower("openid") == "openid" && Lower("email") == "email" && Lower("profile") == "profile";
      assert LowerAll(chosen)[0] == "openid" && LowerAll(chosen)[1] == "email" && LowerAll(chosen)[2] == "profile";
    } else {
      if word :| word in words && x == Lower(word) {
        var i :| 0 <= i < |words| && words[i] == word;
        assert LowerAll(chosen)[i] == x;
      }
    }
  }

  /** The texts agree on `k` characters, and then the first ends or has the smaller character. */
  ghost predicate Precedes(a: string, b: string, k: nat) {
    k <= |a| && k < |b| && a[..k] == b[..k] && (k == |a| || a[k] < b[k])
  }

  /** The order is that of the first character that differs, and a text comes after its beginnings. */
  lemma {:induction false} LessMeans(a: string, b: string)
    ensures Less(a, b) <==> exists k: nat :: Precedes(a, b, k)
  {
    if a == "" && b != "" {
      assert Precedes(a, b, 0);
    } else if a != "" && b != "" {
      LessMeans(a[1..], b[1..]);
      if a[0] == b[0] {
        if k: nat :| Precedes(a[1..], b[1..], k) {
          assert a[..k + 1] == [a[0]] + a[1..][..k] && b[..k + 1] == [b[0]] + b[1..][..k];
          assert Precedes(a, b, k + 1);
        }
        if k: nat :| Precedes(a, b, k) {
          assert k > 0;
          assert a[1..][..k - 1] == a[..k][1..] && b[1..][..k - 1] == b[..k][1..];
          assert Precedes(a[1..], b[1..], k - 1);
        }
      } else {
        assert a[0] < b[0] ==> Precedes(a, b, 0);
        if k: nat :| Precedes(a, b, k) {
          assert k > 0 ==> a[..k][0] == b[..k][0];
        }
      }
    }
  }
}
