/** One concrete world, in which everything that is assumed of a run holds, and in which an orphan is left. */
module Witness {
  import opened Options
  import opened AuthentikServer
  import opened AuthentikApi
  import opened ConfigKey
  import opened Reconciler
  import opened Ownership
  import opened Identity
  import opened Runs
  import opened Recovery
  import opened Orphans
  import opened Start

  /** Any listing of the keys will do. */
  ghost function Enumerate(keys: set<Key>): seq<Key> {
    if keys == {} then []
    else
      var k :| k in keys;
      [k] + Enumerate(keys - {k})
  }

  lemma {:induction false} EnumerateLists(keys: set<Key>)
    ensures Distinct(Enumerate(keys)) && forall k :: k in Enumerate(keys) <==> k in keys
  {
    if keys != {} {
      var s := Enumerate(keys);
      EnumerateLists(keys - {s[0]});
      assert s == [s[0]] + Enumerate(keys - {s[0]});
    }
  }

  ghost function TheContext(): Context {
    Context((i: nat) => Clear, (i: nat) => Credentials("id", "secret"),
        (r: nat) => NamesOf("0123456789ab", "grafana", r),
            "https://idp.example", Enumerate)
  }

  /** A server with a foreign provider, the two default flows and the mappings of the default scopes. */
  function TheServer(): Server {
    Server(map[0 := Provider("admin", Credentials("admin", "secret"), Settings([], "a", "i", [], []))], map[], 1,
           map[AuthorizationFlow := "a", InvalidationFlow := "i"], {"a", "i"},
           map["openid" := "m1", "email" := "m2", "profile" := "m3"])
  }

  function TheWorld(): World {
    var none := Local(map[], "", "", map[], map[]);
    World(Net(TheServer(), []), None, map[], true, none, none, {})
  }

  function TheRelation(): Relation {
    Relation(7, true, "", Valid(["https://grafana.example/login"], ["authorization_code"]), Readable)
  }

  lemma AllListed()
    ensures Lists(Enumerate)
  {
    forall keys: set<Key> ensures Distinct(Enumerate(keys)) && forall k :: k in Enumerate(keys) <==> k in keys {
      EnumerateLists(keys);
    }
  }

  lemma TheWorldIsInitial()
    ensures Initial(TheContext(), TheWorld())
  {
    var c, w := TheContext(), TheWorld();
    AllListed();
    assert Identified(c.ids, "0123456789ab", (r: nat) => "grafana");
    forall r: nat ensures NoObjects(c.ids(r), w.net.server) {
      assert |c.ids(r).provider| > 5 && |c.ids(r).legacyProvider| > 5;
    }
    AnyStart(c, w, "0123456789ab", (r: nat) => "grafana", map[]);
  }

  lemma DefaultScopesSupported()
    ensures Supported(TheServer().mappings, Scopes(""))
  {
    var words := ["openid", "email", "profile"];
    SortedSetCanonical(LowerAll(words));
    assert words[1..] == ["email", "profile"] && words[1..][1..] == ["profile"] && words[1..][1..][1..] == [];
    assert Lower("openid") == "openid" && Lower("email") == "email" && Lower("profile") == "profile";
    assert LowerAll(words) == words;
    forall i | 0 <= i < |Scopes("")| ensures Scopes("")[i] in TheServer().mappings {
      assert Scopes("")[i] in Elements(words);
    }
  }

  /**
   The run: a hook creates the provider of a new relation and dies; in the next hook, and in every
   later one, the relation is gone. The provider is left, and nothing in the cache tells of it.
   */
  lemma OneOrphan(rest: seq<Hook>) returns (p: Pk)
    requires forall h :: h in rest ==> h.active == [] && h.model == map[]
    ensures var c, rel := TheContext(), TheRelation();
      var events := [HookEvent(Hook(map[rel.id := rel], [rel.id], false, true))] + Hooks(rest);
      && Initial(c, TheWorld()) && LegalRun(c, TheWorld(), events)
      && var u := Run(c, TheWorld(), events);
        Bears(c.ids(rel.id), u.net.server, p) && Rel(rel.id) !in u.saved.cache
  {
    var c, w, rel := TheContext(), TheWorld(), TheRelation();
    TheWorldIsInitial();
    DefaultScopesSupported();
    var first := HookEvent(Hook(map[rel.id := rel], [rel.id], false, true));
    var events := [first] + Hooks(rest);
    assert events[0] == first && events[1..] == Hooks(rest);
    IdleHooksLegal(c, Happen(c, w, first), rest);
    p := OrphanArises(c, w, rel, Hooks(rest));
  }

  function Hooks(hooks: seq<Hook>): (events: seq<Event>)
    ensures |events| == |hooks| && forall i :: 0 <= i < |events| ==> events[i] == HookEvent(hooks[i])
  {
    if hooks == [] then [] else [HookEvent(hooks[0])] + Hooks(hooks[1..])
  }

  lemma {:induction false} IdleHooksLegal(c: Context, w: World, hooks: seq<Hook>)
    requires Lists(c.order) && forall h :: h in hooks ==> h.active == [] && h.model == map[]
    ensures LegalRun(c, w, Hooks(hooks))
    decreases |hooks|
  {
    if hooks != [] {
      assert hooks[0] in hooks;
      assert Hooks(hooks)[1..] == Hooks(hooks[1..]);
      IdleHooksLegal(c, Happen(c, w, HookEvent(hooks[0])), hooks[1..]);
    }
  }
}
