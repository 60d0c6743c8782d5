// Preload order of JavaScript modules (internal/http/assets.go): a depth-first
// walk over static imports that marks a module when it enters it and lists it
// when it leaves it.
module ModulePreload {
  type Url = string

  /**
   * The readable modules with their import specifiers, and how a relative specifier is joined to the
   * importing module's directory.
   */
  datatype Site = Site(files: map<Url, seq<string>>, join: (Url, string) -> Url)

  /** A specifier's module: rooted ones as they are, relative ones joined, bare ones skipped. */
  function Targets(site: Site, u: Url, spec: string): seq<Url> {
    if "/" <= spec then [spec] else if "." <= spec then [site.join(u, spec)] else []
  }

  function TargetsOf(site: Site, u: Url, specs: seq<string>): seq<Url> {
    if specs == [] then [] else Targets(site, u, specs[0]) + TargetsOf(site, u, specs[1..])
  }

  function Imports(site: Site, u: Url): seq<Url>
    requires u in site.files
  {
    TargetsOf(site, u, site.files[u])
  }

  /** A rooted specifier names its module as it is, one that starts with a dot after joining it to the directory. */
  predicate Names(site: Site, u: Url, spec: string, v: Url) {
    if "/" <= spec then v == spec else "." <= spec && v == site.join(u, spec)
  }

  lemma {:induction false} TargetsSay(site: Site, u: Url, specs: seq<string>, v: Url)
    ensures v in TargetsOf(site, u, specs) <==> exists spec <- specs :: Names(site, u, spec, v)
  {
    if specs != [] {
      TargetsSay(site, u, specs[1..], v);
      assert v in Targets(site, u, specs[0]) <==> Names(site, u, specs[0], v);
      assert specs == [specs[0]] + specs[1..];
      hide Names;
      if spec :| spec in specs && Names(site, u, spec, v) {
        assert spec == specs[0] || spec in specs[1..];
      }
    }
  }

  /** A module imports exactly what its specifiers name. */
  lemma ImportsSay(site: Site, u: Url, v: Url)
    requires u in site.files
    ensures v in Imports(site, u) <==> exists spec <- site.files[u] :: Names(site, u, spec, v)
  {
    TargetsSay(site, u, site.files[u], v);
  }

  datatype Walk = Walk(seen: set<Url>, order: seq<Url>)

  ghost function Unseen(site: Site, w: Walk): set<Url> {
    site.files.Keys - w.seen
  }

  lemma FewerUnseen(site: Site, w: Walk, w': Walk)
    requires w.seen <= w'.seen
    ensures |Unseen(site, w')| <= |Unseen(site, w)|
  {
    SmallerSet(Unseen(site, w'), Unseen(site, w));
  }

  lemma SmallerSet<T>(a: set<T>, b: set<T>)
    requires a <= b
    ensures |a| <= |b|
  {
    assert b == a + (b - a);
  }

  lemma EnterShrinks(site: Site, w: Walk, u: Url)
    requires u in site.files && u !in w.seen
    ensures |Unseen(site, Walk(w.seen + {u}, w.order))| < |Unseen(site, w)|
  {
    assert Unseen(site, w) == Unseen(site, Walk(w.seen + {u}, w.order)) + {u};
  }

  /** visit. */
  ghost function Visit(site: Site, u: Url, w: Walk): (r: Walk)
    ensures w.seen + {u} <= r.seen
    decreases |Unseen(site, w)|, 0
  {
    if u in w.seen then w
    else
      var entered := Walk(w.seen + {u}, w.order);
      if u !in site.files then entered
      else
        EnterShrinks(site, w, u);
        var left := VisitAll(site, Imports(site, u), entered);
        Walk(left.seen, left.order + [u])
  }

  ghost function VisitAll(site: Site, us: seq<Url>, w: Walk): (r: Walk)
    ensures w.seen <= r.seen && forall u <- us :: u in r.seen
    decreases |Unseen(site, w)|, 1, |us|
  {
    if us == [] then w
    else
      var next := Visit(site, us[0], w);
      FewerUnseen(site, w, next);
      VisitAll(site, us[1..], next)
  }

  lemma TargetsStep(site: Site, u: Url, specs: seq<string>, i: nat)
    requires i < |specs|
    ensures TargetsOf(site, u, specs[i..]) == Targets(site, u, specs[i]) + TargetsOf(site, u, specs[i + 1..])
    ensures Targets(site, u, specs[i]) == [] ==> TargetsOf(site, u, specs[i..]) == TargetsOf(site, u, specs[i + 1..])
  {
    assert specs[i..][1..] == specs[i + 1..];
  }

  lemma VisitAllStep(site: Site, u: Url, us: seq<Url>, w: Walk)
    ensures VisitAll(site, [u] + us, w) == VisitAll(site, us, Visit(site, u, w))
  {
    assert ([u] + us)[1..] == us;
  }

  /** eagerModules. */
  ghost function EagerModules(site: Site, entry: Url): seq<Url> {
    Visit(site, entry, Walk({}, [])).order
  }

  class Walker {
    const site: Site
    var seen: set<Url>
    var order: seq<Url>

    constructor (site: Site)
      ensures this.site == site && seen == {} && order == []
    {
      this.site := site;
      seen, order := {}, [];
    }

    ghost function State(): Walk
      reads this
    {
      Walk(seen, order)
    }

    method Enter(u: Url)
      modifies this
      ensures State() == Visit(site, u, old(State()))
      decreases |Unseen(site, State())|
    {
      hide Visit, VisitAll, TargetsOf;
      VisitSteps(site, u, State());
      if u in seen {
        return;
      }
      seen := seen + {u};
      if u !in site.files {
        return;
      }
      EnterShrinks(site, old(State()), u);
      ghost var entered := State();
      var specs := site.files[u];
      var i := 0;
      assert specs[0..] == specs;
      while i < |specs|
        invariant 0 <= i <= |specs| && entered.seen <= seen
        invariant VisitAll(site, Imports(site, u), entered) == VisitAll(site, TargetsOf(site, u, specs[i..]), State())
      {
        var dep;
        TargetsStep(site, u, specs, i);
        if "/" <= specs[i] {
          dep := specs[i];
        } else if "." <= specs[i] {
          dep := site.join(u, specs[i]);
        } else {
          i := i + 1;
          continue;
        }
        VisitAllStep(site, dep, TargetsOf(site, u, specs[i + 1..]), State());
        FewerUnseen(site, entered, State());
        Enter(dep);
        i := i + 1;
      }
      assert specs[i..] == [];
      VisitNothing(site, u, State());
      order := order + [u];
    }
  }

  /** The three ways a visit goes. */
  lemma VisitSteps(site: Site, u: Url, w: Walk)
    ensures u in w.seen ==> Visit(site, u, w) == w
    ensures u !in w.seen && u !in site.files ==> Visit(site, u, w) == Walk(w.seen + {u}, w.order)
    ensures u !in w.seen && u in site.files ==>
              var left := VisitAll(site, Imports(site, u), Walk(w.seen + {u}, w.order));
              Visit(site, u, w) == Walk(left.seen, left.order + [u])
  {
  }

  lemma VisitNothing(site: Site, u: Url, w: Walk)
    ensures VisitAll(site, TargetsOf(site, u, []), w) == w
  {
  }

  method ListEagerModules(site: Site, entry: Url) returns (order: seq<Url>)
    ensures order == EagerModules(site, entry)
  {
    var w := new Walker(site);
    w.Enter(entry);
    order := w.order;
  }

  // ---- Reachability ---------------------------------------------------------

  /** One module statically imports another. */
  ghost predicate Edge(site: Site, u: Url, v: Url) {
    u in site.files && v in Imports(site, u)
  }

  /** A chain of imports; every module but the last is readable. */
  ghost predicate Chain(site: Site, p: seq<Url>) {
    p != [] && forall i {:trigger p[i]} :: 0 < i < |p| ==> Edge(site, p[i - 1], p[i])
  }

  ghost predicate Reaches(site: Site, u: Url, v: Url) {
    exists p :: Chain(site, p) && p[0] == u && p[|p| - 1] == v
  }

  lemma ReachesSelf(site: Site, u: Url)
    ensures Reaches(site, u, u)
  {
    assert Chain(site, [u]) && [u][0] == u;
  }

  lemma ReachesMore(site: Site, u: Url, v: Url, w: Url)
    requires Reaches(site, u, v) && Edge(site, v, w)
    ensures Reaches(site, u, w)
  {
    var p :| Chain(site, p) && p[0] == u && p[|p| - 1] == v;
    var q := p + [w];
    assert Chain(site, q) && q[0] == u && q[|q| - 1] == w;
  }

  lemma {:induction false} ReachesOn(site: Site, u: Url, v: Url, w: Url)
    requires Reaches(site, u, v) && Reaches(site, v, w)
    ensures Reaches(site, u, w)
  {
    var p :| Chain(site, p) && p[0] == u && p[|p| - 1] == v;
    var q :| Chain(site, q) && q[0] == v && q[|q| - 1] == w;
    var r := p[..|p| - 1] + q;
    forall i | 0 < i < |r|
      ensures Edge(site, r[i - 1], r[i])
    {
      if i < |p| {
        assert Edge(site, p[i - 1], p[i]);
      } else {
        assert Edge(site, q[i - |p|], q[i - |p| + 1]);
      }
    }
    assert Chain(site, r) && r[0] == u && r[|r| - 1] == w;
  }

  // ---- What a walk keeps ----------------------------------------------------

  ghost function Listed(w: Walk): set<Url> {
    set u | u in w.order
  }

  /** Entered and readable but not yet listed: the modules the walk is inside of. */
  ghost function Open(site: Site, w: Walk): set<Url> {
    (w.seen * site.files.Keys) - Listed(w)
  }

  ghost predicate Distinct(s: seq<Url>) {
    forall i, j :: 0 <= i < j < |s| ==> s[i] != s[j]
  }

  /** A listed module's readable imports come before it or lead back to it. */
  ghost predicate Ordered(site: Site, order: seq<Url>) {
    forall i, v {:trigger Edge(site, order[i], v)} ::
      0 <= i < |order| && Edge(site, order[i], v) && v in site.files ==> v in order[..i] || Reaches(site, v, order[i])
  }

  ghost predicate Consistent(site: Site, w: Walk) {
    && Distinct(w.order)
    && (forall u <- w.order :: u in site.files && u in w.seen)
    && (forall u, v {:trigger Edge(site, u, v)} :: u in w.order && Edge(site, u, v) ==> v in w.seen)
    && Ordered(site, w.order)
  }

  /** A walk went on, entering only what u reaches, and left every module it entered. */
  ghost predicate Went(site: Site, w: Walk, r: Walk) {
    && Consistent(site, r)
    && w.seen <= r.seen
    && w.order <= r.order
    && Open(site, r) == Open(site, w)
  }

  ghost predicate Found(site: Site, u: Url, w: Walk, r: Walk) {
    forall v <- r.seen :: v in w.seen || Reaches(site, u, v)
  }

  lemma {:induction false} VisitWent(site: Site, u: Url, w: Walk)
    requires Consistent(site, w)
    requires forall g <- Open(site, w) :: Reaches(site, g, u)
    ensures Went(site, w, Visit(site, u, w))
    ensures Found(site, u, w, Visit(site, u, w))
    decreases |Unseen(site, w)|, 0
  {
    hide Reaches, VisitAll, Edge, Consistent, Open;
    ReachesSelf(site, u);
    if u !in w.seen {
      var entered := Walk(w.seen + {u}, w.order);
      Entering(site, u, w);
      if u in site.files {
        EnterShrinks(site, w, u);
        var us := Imports(site, u);
        forall v | v in us
          ensures Edge(site, u, v)
        {
          EdgeOf(site, u, v);
        }
        VisitAllWent(site, u, us, entered);
        var left := VisitAll(site, us, entered);
        Leave(site, u, us, w, left);
      }
    }
  }

  lemma Entering(site: Site, u: Url, w: Walk)
    requires Consistent(site, w) && u !in w.seen
    ensures Consistent(site, Walk(w.seen + {u}, w.order))
    ensures Open(site, Walk(w.seen + {u}, w.order)) == if u in site.files then Open(site, w) + {u} else Open(site, w)
  {
    hide Reaches, Edge;
  }

  lemma EdgeOf(site: Site, u: Url, v: Url)
    requires u in site.files
    ensures Edge(site, u, v) <==> v in Imports(site, u)
  {
  }

  /** Listing a module once its imports have been visited. */
  lemma Leave(site: Site, u: Url, us: seq<Url>, w: Walk, left: Walk)
    requires u in site.files && us == Imports(site, u) && u !in w.seen
    requires Consistent(site, w) && Went(site, Walk(w.seen + {u}, w.order), left)
    requires forall v <- us :: v in left.seen
    requires forall g <- Open(site, w) :: Reaches(site, g, u)
    ensures Went(site, w, Walk(left.seen, left.order + [u]))
  {
    hide Reaches, Edge;
    var r := Walk(left.seen, left.order + [u]);
    ReachesSelf(site, u);
    Entering(site, u, w);
    assert u in Open(site, left) && u !in Open(site, w);
    assert forall v :: v in r.order <==> v in left.order || v == u;
    assert Listed(r) == Listed(left) + {u};
    assert Open(site, r) == Open(site, left) - {u};
    forall i, v | 0 <= i < |r.order| && Edge(site, r.order[i], v) && v in site.files
      ensures v in r.order[..i] || Reaches(site, v, r.order[i])
    {
      if i < |left.order| {
        assert r.order[..i] == left.order[..i] && Edge(site, left.order[i], v);
      } else {
        EdgeOf(site, u, v);
        assert r.order[..i] == left.order;
      }
    }
    forall v, x | v in r.order && Edge(site, v, x)
      ensures x in r.seen
    {
      if v == u {
        EdgeOf(site, u, x);
      }
    }
  }

  lemma {:induction false} VisitAllWent(site: Site, u: Url, us: seq<Url>, w: Walk)
    requires Consistent(site, w)
    requires forall v <- us :: Edge(site, u, v)
    requires forall g <- Open(site, w) :: Reaches(site, g, u)
    ensures Went(site, w, VisitAll(site, us, w))
    ensures Found(site, u, w, VisitAll(site, us, w))
    decreases |Unseen(site, w)|, 1, |us|
  {
    hide Reaches, Edge, Consistent, Visit, Open;
    if us != [] {
      var next := Visit(site, us[0], w);
      assert us[0] in us;
      forall g | g in Open(site, w)
        ensures Reaches(site, g, us[0])
      {
        ReachesMore(site, g, u, us[0]);
      }
      VisitWent(site, us[0], w);
      FewerUnseen(site, w, next);
      VisitAllWent(site, u, us[1..], next);
      ReachesSelf(site, u);
      ReachesMore(site, u, u, us[0]);
      forall v | v in next.seen
        ensures v in w.seen || Reaches(site, u, v)
      {
        if v !in w.seen {
          ReachesOn(site, u, us[0], v);
        }
      }
    }
  }

  // ---- Main results ---------------------------------------------------------

  /**
   * The list holds exactly the readable modules the entry reaches through readable ones, each once,
   * whatever the cycles.
   */
  lemma ListsExactlyReachable(site: Site, entry: Url)
    ensures Distinct(EagerModules(site, entry))
    ensures forall v :: v in EagerModules(site, entry) <==> v in site.files && Reaches(site, entry, v)
  {
    hide Visit, Reaches;
    var w := Walk({}, []);
    var r := Visit(site, entry, w);
    VisitWent(site, entry, w);
    assert Open(site, r) == {};
    forall v
      ensures v in r.order <==> v in site.files && Reaches(site, entry, v)
    {
      if v in site.files && Reaches(site, entry, v) {
        var p := ChainTo(site, entry, v);
        ChainSeen(site, r, p);
      }
    }
  }

  lemma ChainTo(site: Site, u: Url, v: Url) returns (p: seq<Url>)
    requires Reaches(site, u, v)
    ensures Chain(site, p) && p[0] == u && p[|p| - 1] == v
  {
    p :| Chain(site, p) && p[0] == u && p[|p| - 1] == v;
  }

  /** A finished walk that has seen a chain's start has seen all of it. */
  lemma {:induction false} ChainSeen(site: Site, r: Walk, p: seq<Url>)
    requires Consistent(site, r) && Open(site, r) == {}
    requires Chain(site, p) && p[0] in r.seen
    ensures p[|p| - 1] in r.seen && (p[|p| - 1] in site.files ==> p[|p| - 1] in r.order)
  {
    if |p| > 1 {
      var q := p[..|p| - 1];
      assert Chain(site, q);
      ChainSeen(site, r, q);
      assert Edge(site, p[|p| - 2], p[|p| - 1]);
      assert p[|p| - 2] in r.order;
    }
    if p[|p| - 1] in site.files {
      assert p[|p| - 1] !in Open(site, r);
    }
  }

  /** A listed module's readable import comes before it unless the two lie on a cycle. */
  lemma ImportsComeFirst(site: Site, entry: Url, i: nat, v: Url)
    requires i < |EagerModules(site, entry)|
    requires v in site.files && Edge(site, EagerModules(site, entry)[i], v)
    ensures v in EagerModules(site, entry)[..i] || Reaches(site, v, EagerModules(site, entry)[i])
  {
    hide Visit, Reaches;
    VisitWent(site, entry, Walk({}, []));
  }

  ghost predicate Acyclic(site: Site) {
    forall u, v {:trigger Edge(site, u, v)} :: Edge(site, u, v) ==> !Reaches(site, v, u)
  }

  /** Without cycles every module follows all its readable imports, so the list can be evaluated front to back. */
  lemma AcyclicOrder(site: Site, entry: Url)
    requires Acyclic(site)
    ensures forall i, v ::
              0 <= i < |EagerModules(site, entry)| && v in site.files && Edge(site, EagerModules(site, entry)[i], v) ==>
                v in EagerModules(site, entry)[..i]
  {
    hide Visit, Reaches;
    forall i, v | 0 <= i < |EagerModules(site, entry)| && v in site.files && Edge(site, EagerModules(site, entry)[i], v)
      ensures v in EagerModules(site, entry)[..i]
    {
      ImportsComeFirst(site, entry, i, v);
    }
  }
}
