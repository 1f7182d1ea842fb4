/** Pure specification of how Lumber's inheritance hook chooses a logger for a
    newly declared class: the superclass chain it walks, the "inside a
    registered namespace" test it applies to each ancestor's logger, and the
    logger name it finally assigns. */
module Propagation {

  datatype Option<T> = None | Some(value: T)

  /** Identity of a Ruby class object. */
  type ClassId = nat

  /** The superclass of `c`, or None when `c` is the root of the hierarchy. */
  function ParentOf(superclass: map<ClassId, ClassId>, c: ClassId): Option<ClassId>
  {
    if c in superclass then Some(superclass[c]) else None
  }

  /** `rank` witnesses that the superclass relation is acyclic: every class
      ranks strictly above its superclass. */
  ghost predicate Ranked(superclass: map<ClassId, ClassId>, rank: map<ClassId, nat>)
  {
    forall c :: c in superclass ==> c in rank && superclass[c] in rank && rank[superclass[c]] < rank[c]
  }

  /** The classes visited by following `superclass` from `start` until a class
      without a superclass: `start`, its superclass, that one's superclass, ... */
  ghost function Ancestors(superclass: map<ClassId, ClassId>, rank: map<ClassId, nat>, start: Option<ClassId>): (chain: seq<ClassId>)
    requires Ranked(superclass, rank)
    requires start.Some? ==> start.value in rank
    ensures start.None? <==> chain == []
    ensures start.Some? ==> chain[0] == start.value
    ensures forall i :: 0 <= i < |chain| ==> chain[i] in rank
    ensures forall i :: 0 <= i < |chain| - 1 ==> chain[i] in superclass && superclass[chain[i]] == chain[i + 1]
    ensures chain != [] ==> chain[|chain| - 1] !in superclass
    decreases if start.Some? then rank[start.value] + 1 else 0
  {
    match start
    case None => []
    case Some(c) => [c] + Ancestors(superclass, rank, ParentOf(superclass, c))
  }

  /** The test at the heart of the walk: some registered namespace is a plain
      string prefix of `fullname` (Ruby's `fullname.index(v) == 0`). */
  predicate Inside(registry: map<string, string>, fullname: string): (r: bool)
    ensures fullname in registry.Values ==> r
  {
    assert fullname in registry.Values ==> fullname <= fullname;
    exists v :: v in registry.Values && v <= fullname
  }

  /** Class `c` owns a (non-nil) logger whose full name is inside a registered
      namespace, so the walk stops at `c`. */
  predicate Qualifies(logger: map<ClassId, string>, registry: map<string, string>, c: ClassId): (r: bool)
    ensures c in logger && logger[c] in registry.Values ==> r
  {
    c in logger && Inside(registry, logger[c])
  }

  /** The position of the first qualifying class in `chain`, or `|chain|` when
      none qualifies. */
  function FirstQualifying(chain: seq<ClassId>, logger: map<ClassId, string>, registry: map<string, string>): (k: nat)
    ensures k <= |chain|
    ensures forall j :: 0 <= j < k ==> !Qualifies(logger, registry, chain[j])
    ensures k < |chain| ==> Qualifies(logger, registry, chain[k])
  {
    if chain == [] then 0
    else if Qualifies(logger, registry, chain[0]) then 0
    else 1 + FirstQualifying(chain[1..], logger, registry)
  }

  /** The ancestor, starting at `start`, whose logger the walk derives from:
      `start` itself when it qualifies, otherwise the walk continues at its
      superclass; None once the walk runs past the root. */
  ghost function NearestOwner(superclass: map<ClassId, ClassId>, rank: map<ClassId, nat>, logger: map<ClassId, string>,
                              registry: map<string, string>, start: Option<ClassId>): (r: Option<ClassId>)
    requires Ranked(superclass, rank)
    requires start.Some? ==> start.value in rank
    ensures r.Some? ==> r.value in Ancestors(superclass, rank, start) && Qualifies(logger, registry, r.value)
    ensures r.None? ==> forall c :: c in Ancestors(superclass, rank, start) ==> !Qualifies(logger, registry, c)
    decreases if start.Some? then rank[start.value] + 1 else 0
  {
    match start
    case None => None
    case Some(c) =>
      if Qualifies(logger, registry, c) then Some(c)
      else NearestOwner(superclass, rank, logger, registry, ParentOf(superclass, c))
  }

  /** The class's name as Ruby interpolates it: an anonymous class has none. */
  function NameText(names: map<ClassId, string>, c: ClassId): string
  {
    if c in names then names[c] else ""
  }

  /** The class's own name is a key of the registry. */
  predicate Registered(names: map<ClassId, string>, registry: map<string, string>, c: ClassId)
  {
    c in names && names[c] in registry
  }

  /** The logger name the hook assigns to the newly declared class `sub`, or
      None when it leaves `sub` without a logger. A name it assigns is itself
      inside a registered namespace, so `sub`'s own subclasses can derive
      from it. */
  ghost function HookOutcome(registry: map<string, string>, superclass: map<ClassId, ClassId>, rank: map<ClassId, nat>,
                             names: map<ClassId, string>, logger: map<ClassId, string>, sub: ClassId): (r: Option<string>)
    requires Ranked(superclass, rank) && sub in rank
    ensures r.Some? ==> Inside(registry, r.value)
  {
    if Registered(names, registry, sub) then
      assert registry[names[sub]] in registry.Values;
      Some(registry[names[sub]])
    else
      match NearestOwner(superclass, rank, logger, registry, ParentOf(superclass, sub))
      case Some(a) =>
        var s := logger[a] + "::" + NameText(names, sub);
        var v :| v in registry.Values && v <= logger[a];
        assert v <= s by { assert s[..|logger[a]|] == logger[a]; }
        Some(s)
      case None => None
  }

  /** Reading the logger slot of `c`: absent when `c` has no logger. */
  function SlotOf(logger: map<ClassId, string>, c: ClassId): Option<string>
  {
    if c in logger then Some(logger[c]) else None
  }

  /** Assigning an optional logger name to the slot of `c`. */
  function Assign(logger: map<ClassId, string>, c: ClassId, out: Option<string>): map<ClassId, string>
  {
    if out.Some? then logger[c := out.value] else logger
  }

  // ---------------------------------------------------------------------------
  // Properties of the walk

  /** Every class on the chain from `start` ranks no higher than `start`. */
  lemma {:induction false} AncestorsRankBelow(superclass: map<ClassId, ClassId>, rank: map<ClassId, nat>, start: Option<ClassId>, bound: nat)
    requires Ranked(superclass, rank)
    requires start.Some? ==> start.value in rank && rank[start.value] < bound
    ensures forall c :: c in Ancestors(superclass, rank, start) ==> rank[c] < bound
    decreases if start.Some? then rank[start.value] + 1 else 0
  {
    if start.Some? {
      AncestorsRankBelow(superclass, rank, ParentOf(superclass, start.value), bound);
    }
  }

  /** The walk starts at the immediate superclass and never reaches the new
      class itself. */
  lemma WalkExcludesSubclass(superclass: map<ClassId, ClassId>, rank: map<ClassId, nat>, sub: ClassId)
    requires Ranked(superclass, rank) && sub in rank
    ensures sub !in Ancestors(superclass, rank, ParentOf(superclass, sub))
  {
    if sub in superclass {
      AncestorsRankBelow(superclass, rank, ParentOf(superclass, sub), rank[sub]);
    }
  }

  /** The walk breaks at the first ancestor that qualifies. */
  lemma NearestStopsAtQualifying(superclass: map<ClassId, ClassId>, rank: map<ClassId, nat>, logger: map<ClassId, string>,
                                 registry: map<string, string>, p: ClassId)
    requires Ranked(superclass, rank) && p in rank
    requires Qualifies(logger, registry, p)
    ensures NearestOwner(superclass, rank, logger, registry, Some(p)) == Some(p)
  {
  }

  /** An ancestor without a logger, or whose logger is not inside any registered
      namespace, is skipped: the walk continues at its superclass. */
  lemma NearestSkipsUnqualified(superclass: map<ClassId, ClassId>, rank: map<ClassId, nat>, logger: map<ClassId, string>,
                                registry: map<string, string>, p: ClassId)
    requires Ranked(superclass, rank) && p in rank
    requires !Qualifies(logger, registry, p)
    ensures NearestOwner(superclass, rank, logger, registry, Some(p))
         == NearestOwner(superclass, rank, logger, registry, ParentOf(superclass, p))
  {
  }

  /** One step of `FirstQualifying` past a class that does not qualify. */
  lemma SkipFirst(p: ClassId, rest: seq<ClassId>, logger: map<ClassId, string>, registry: map<string, string>)
    requires !Qualifies(logger, registry, p)
    ensures FirstQualifying([p] + rest, logger, registry) == 1 + FirstQualifying(rest, logger, registry)
  {
    assert ([p] + rest)[1..] == rest;
  }

  /** The walk's choice agrees with the first qualifying position of the whole
      chain: the class there, or None when that position is past the end. */
  lemma {:induction false} NearestIsFirstQualifying(superclass: map<ClassId, ClassId>, rank: map<ClassId, nat>,
                                                    logger: map<ClassId, string>, registry: map<string, string>,
                                                    start: Option<ClassId>)
    requires Ranked(superclass, rank) && (start.Some? ==> start.value in rank)
    ensures var chain := Ancestors(superclass, rank, start);
            var k := FirstQualifying(chain, logger, registry);
            NearestOwner(superclass, rank, logger, registry, start) == if k < |chain| then Some(chain[k]) else None
    decreases if start.Some? then rank[start.value] + 1 else 0
  {
    match start
    case None =>
    case Some(c) =>
      if !Qualifies(logger, registry, c) {
        var rest := Ancestors(superclass, rank, ParentOf(superclass, c));
        assert Ancestors(superclass, rank, start) == [c] + rest;
        SkipFirst(c, rest, logger, registry);
        NearestIsFirstQualifying(superclass, rank, logger, registry, ParentOf(superclass, c));
        var k := FirstQualifying(rest, logger, registry);
        if k < |rest| {
          assert ([c] + rest)[1 + k] == rest[k];
        }
      }
  }

  /** The nearest owner is exactly the first qualifying class on the chain: every
      class before it was skipped. */
  lemma NearestIsFirst(superclass: map<ClassId, ClassId>, rank: map<ClassId, nat>, logger: map<ClassId, string>,
                       registry: map<string, string>, start: Option<ClassId>, i: nat)
    requires Ranked(superclass, rank) && (start.Some? ==> start.value in rank)
    requires i < |Ancestors(superclass, rank, start)|
    requires Qualifies(logger, registry, Ancestors(superclass, rank, start)[i])
    requires forall j :: 0 <= j < i ==> !Qualifies(logger, registry, Ancestors(superclass, rank, start)[j])
    ensures NearestOwner(superclass, rank, logger, registry, start) == Some(Ancestors(superclass, rank, start)[i])
  {
    var chain := Ancestors(superclass, rank, start);
    var k := FirstQualifying(chain, logger, registry);
    assert k == i by {
      assert k < |chain| ==> Qualifies(logger, registry, chain[k]);
      assert !Qualifies(logger, registry, chain[k]) ==> !(k < i);
    }
    NearestIsFirstQualifying(superclass, rank, logger, registry, start);
  }

  /** A class whose own name is registered gets that namespace, whatever its
      ancestors own. */
  lemma DirectRegistration(registry: map<string, string>, superclass: map<ClassId, ClassId>, rank: map<ClassId, nat>,
                           names: map<ClassId, string>, logger: map<ClassId, string>, sub: ClassId)
    requires Ranked(superclass, rank) && sub in rank
    requires sub in names && names[sub] in registry
    ensures HookOutcome(registry, superclass, rank, names, logger, sub) == Some(registry[names[sub]])
  {
  }

  /** An unregistered class whose superclass qualifies gets
      `<superclass logger>::<class name>`. */
  lemma ChildOfQualifyingParent(registry: map<string, string>, superclass: map<ClassId, ClassId>, rank: map<ClassId, nat>,
                                names: map<ClassId, string>, logger: map<ClassId, string>, sub: ClassId)
    requires Ranked(superclass, rank) && sub in rank
    requires !Registered(names, registry, sub)
    requires sub in superclass && Qualifies(logger, registry, superclass[sub])
    ensures HookOutcome(registry, superclass, rank, names, logger, sub)
         == Some(logger[superclass[sub]] + "::" + NameText(names, sub))
  {
  }

  /** An unregistered class whose nearest qualifying ancestor, at any depth, is
      the class at position `i` of the walked chain gets
      `<that ancestor's logger>::<class name>`. */
  lemma NearestAncestorAtDepth(registry: map<string, string>, superclass: map<ClassId, ClassId>, rank: map<ClassId, nat>,
                               names: map<ClassId, string>, logger: map<ClassId, string>, sub: ClassId, i: nat)
    requires Ranked(superclass, rank) && sub in rank
    requires !Registered(names, registry, sub)
    requires i < |Ancestors(superclass, rank, ParentOf(superclass, sub))|
    requires Qualifies(logger, registry, Ancestors(superclass, rank, ParentOf(superclass, sub))[i])
    requires forall j :: 0 <= j < i ==> !Qualifies(logger, registry, Ancestors(superclass, rank, ParentOf(superclass, sub))[j])
    ensures HookOutcome(registry, superclass, rank, names, logger, sub)
         == Some(logger[Ancestors(superclass, rank, ParentOf(superclass, sub))[i]] + "::" + NameText(names, sub))
  {
    NearestIsFirst(superclass, rank, logger, registry, ParentOf(superclass, sub), i);
  }

  /** An unregistered class with no qualifying ancestor is left without a logger. */
  lemma NoQualifyingAncestor(registry: map<string, string>, superclass: map<ClassId, ClassId>, rank: map<ClassId, nat>,
                             names: map<ClassId, string>, logger: map<ClassId, string>, sub: ClassId)
    requires Ranked(superclass, rank) && sub in rank
    requires !Registered(names, registry, sub)
    requires forall c :: c in Ancestors(superclass, rank, ParentOf(superclass, sub)) ==> !Qualifies(logger, registry, c)
    ensures HookOutcome(registry, superclass, rank, names, logger, sub) == None
  {
  }

  /** Adding a fresh class `c` below an existing class does not change the
      superclass chain of any class that already existed. */
  lemma {:induction false} AncestorsUnchangedByDeclaration(superclass: map<ClassId, ClassId>, rank: map<ClassId, nat>,
                                                           c: ClassId, parent: ClassId, start: Option<ClassId>)
    requires Ranked(superclass, rank) && c !in rank && parent in rank
    requires start.Some? ==> start.value in rank
    ensures Ranked(superclass[c := parent], rank[c := rank[parent] + 1])
    ensures Ancestors(superclass[c := parent], rank[c := rank[parent] + 1], start) == Ancestors(superclass, rank, start)
    decreases if start.Some? then rank[start.value] + 1 else 0
  {
    var sup', rank' := superclass[c := parent], rank[c := rank[parent] + 1];
    assert Ranked(sup', rank') by {
      forall d | d in sup'
        ensures d in rank' && sup'[d] in rank' && rank'[sup'[d]] < rank'[d]
      {
        if d != c {
          assert d in superclass;
        }
      }
    }
    if start.Some? {
      var s := start.value;
      assert s != c;
      assert ParentOf(sup', s) == ParentOf(superclass, s);
      AncestorsUnchangedByDeclaration(superclass, rank, c, parent, ParentOf(superclass, s));
    }
  }
}
