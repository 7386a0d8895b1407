/**
 Feature switches: which features an organisation has off once dependencies are followed,
 and how a commercial preset is turned into switches that exist.

 Everything is proved for an arbitrary finite registry, cycles included. FeatureRegistry.dfy
 holds the shipped one.
 */
module Features {

  datatype Def<K> = Def(module_: K, dependsOn: seq<K>, uiSwitch: bool, wired: bool)

  /** `keys` in registry order; `modules` are the module rows. `def` means something for keys only. */
  datatype Registry<!K> = Registry(keys: seq<K>, modules: seq<K>, def: K -> Def<K>)

  type Overrides<K> = map<K, bool>

  /** Dependencies stay inside the registry. */
  ghost predicate Closed<K(!new)>(reg: Registry<K>) {
    forall k, d :: k in reg.keys && d in reg.def(k).dependsOn ==> d in reg.keys
  }

  predicate Off<K(==)>(o: Overrides<K>, k: K) { k in o && !o[k] }

  predicate IsFeatureEnabled<K(==)>(disabled: seq<K>, key: K) { key !in disabled }

  // ---------------------------------------------------------------- the meaning

  /** A chain of dependencies, each the next one's dependent. */
  ghost predicate Chain<K>(reg: Registry<K>, path: seq<K>) {
    && path != []
    && (forall i :: 0 <= i < |path| ==> path[i] in reg.keys)
    && (forall i :: 0 < i < |path| ==> path[i] in reg.def(path[i - 1]).dependsOn)
  }

  ghost predicate ChainBetween<K>(reg: Registry<K>, path: seq<K>, from: K, to: K) {
    Chain(reg, path) && path[0] == from && path[|path| - 1] == to
  }

  ghost predicate Reaches<K(!new)>(reg: Registry<K>, from: K, to: K) {
    exists path :: ChainBetween(reg, path, from, to)
  }

  /** `k` depends, through any number of steps, on something switched off. */
  ghost predicate Doomed<K(!new)>(reg: Registry<K>, o: Overrides<K>, k: K) {
    exists to :: Off(o, to) && Reaches(reg, k, to)
  }

  /** The doomed among `keys`, in order. */
  ghost function Listed<K(!new)>(reg: Registry<K>, o: Overrides<K>, keys: seq<K>): (r: seq<K>)
    ensures forall k :: k in r <==> k in keys && Doomed(reg, o, k)
  {
    if keys == [] then []
    else
      var init, last := keys[..|keys| - 1], keys[|keys| - 1];
      assert keys == init + [last];
      Listed(reg, o, init) + if Doomed(reg, o, last) then [last] else []
  }

  lemma ReachesSelf<K(!new)>(reg: Registry<K>, k: K)
    requires k in reg.keys
    ensures Reaches(reg, k, k)
  {
    assert ChainBetween(reg, [k], k, k);
  }

  lemma ReachesVia<K(!new)>(reg: Registry<K>, k: K, d: K, to: K)
    requires k in reg.keys && d in reg.def(k).dependsOn && Reaches(reg, d, to)
    ensures Reaches(reg, k, to)
  {
    var path :| ChainBetween(reg, path, d, to);
    assert ChainBetween(reg, [k] + path, k, to);
  }

  lemma {:induction false} ReachesOn<K(!new)>(reg: Registry<K>, path: seq<K>, k: K, mid: K, to: K)
    requires ChainBetween(reg, path, k, mid) && Reaches(reg, mid, to)
    ensures Reaches(reg, k, to)
    decreases |path|
  {
    if |path| > 1 {
      assert ChainBetween(reg, path[1..], path[1], mid);
      ReachesOn(reg, path[1..], path[1], mid, to);
      ReachesVia(reg, k, path[1], to);
    }
  }

  lemma ReachesTransitive<K(!new)>(reg: Registry<K>, k: K, mid: K, to: K)
    requires Reaches(reg, k, mid) && Reaches(reg, mid, to)
    ensures Reaches(reg, k, to)
  {
    var path :| ChainBetween(reg, path, k, mid);
    ReachesOn(reg, path, k, mid, to);
  }

  // ---------------------------------------------------------------- fixpoints

  /** A set of keys that could be the disabled ones: what is off is in it, and it is closed under dependents. */
  ghost predicate Fixpoint<K(!new)>(reg: Registry<K>, o: Overrides<K>, s: set<K>) {
    && (forall k :: k in reg.keys && Off(o, k) ==> k in s)
    && (forall k, d :: k in reg.keys && d in reg.def(k).dependsOn && d in s ==> k in s)
  }

  lemma {:induction false} DoomedAlong<K(!new)>(reg: Registry<K>, o: Overrides<K>, s: set<K>, path: seq<K>, k: K, to: K)
    requires Fixpoint(reg, o, s) && Off(o, to) && ChainBetween(reg, path, k, to)
    ensures k in s
    decreases |path|
  {
    if |path| > 1 {
      assert ChainBetween(reg, path[1..], path[1], to);
      DoomedAlong(reg, o, s, path[1..], path[1], to);
    }
  }

  /** The doomed keys are in every fixpoint. */
  lemma DoomedIsLeast<K(!new)>(reg: Registry<K>, o: Overrides<K>, s: set<K>, k: K)
    requires Fixpoint(reg, o, s) && Doomed(reg, o, k)
    ensures k in s
  {
    var to :| Off(o, to) && Reaches(reg, k, to);
    var path :| ChainBetween(reg, path, k, to);
    DoomedAlong(reg, o, s, path, k, to);
  }

  lemma OffIsDoomed<K(!new)>(reg: Registry<K>, o: Overrides<K>, k: K)
    requires k in reg.keys && Off(o, k)
    ensures Doomed(reg, o, k)
  {
    ReachesSelf(reg, k);
  }

  lemma DependentIsDoomed<K(!new)>(reg: Registry<K>, o: Overrides<K>, k: K, d: K)
    requires k in reg.keys && d in reg.def(k).dependsOn && Doomed(reg, o, d)
    ensures Doomed(reg, o, k)
  {
    var to :| Off(o, to) && Reaches(reg, d, to);
    ReachesVia(reg, k, d, to);
  }

  // ---------------------------------------------------------------- the resolver

  type Effective<K> = map<K, bool>

  ghost predicate Covers<K(!new)>(reg: Registry<K>, e: Effective<K>) {
    forall k :: k in reg.keys ==> k in e
  }

  /** Every key switched off so far is off for a reason, and none that is overridden off is left on. */
  ghost predicate Between<K(!new)>(reg: Registry<K>, o: Overrides<K>, e: Effective<K>) {
    && Covers(reg, e)
    && (forall k :: k in reg.keys && Off(e, k) ==> Doomed(reg, o, k))
    && (forall k :: k in reg.keys && Off(o, k) ==> Off(e, k))
  }

  /** The first `n` keys need no change. */
  ghost predicate Settled<K(!new)>(reg: Registry<K>, e: Effective<K>, n: nat)
    requires n <= |reg.keys|
  {
    forall i, d :: 0 <= i < n && d in reg.def(reg.keys[i]).dependsOn && Off(e, d) ==> Off(e, reg.keys[i])
  }

  ghost function StillOn<K>(reg: Registry<K>, e: Effective<K>): set<K> {
    set k | k in reg.keys && !Off(e, k)
  }

  lemma {:induction false} SetOfSeq<T>(s: seq<T>)
    ensures |set x | x in s| <= |s|
  {
    if s == [] {
      assert (set x | x in s) == {};
    } else {
      var rest := s[1..];
      SetOfSeq(rest);
      assert (set x | x in s) == (set x | x in rest) + {s[0]};
    }
  }

  lemma Subset<T>(a: set<T>, b: set<T>)
    requires a <= b
    ensures |a| <= |b| && (a != b ==> |a| < |b|)
  {
    assert b == a + (b - a);
  }

  lemma AtMostAllOn<K>(reg: Registry<K>, e: Effective<K>)
    ensures |StillOn(reg, e)| <= |reg.keys|
  {
    SetOfSeq(reg.keys);
    Subset(StillOn(reg, e), set k | k in reg.keys);
  }

  /** Switching one doomed key off keeps what is known and leaves fewer keys on. */
  lemma SwitchedOff<K(!new)>(reg: Registry<K>, o: Overrides<K>, e: Effective<K>, k: K, d: K)
    requires Between(reg, o, e) && k in reg.keys && !Off(e, k) && d in reg.def(k).dependsOn && Off(e, d)
    requires Closed(reg)
    ensures Between(reg, o, e[k := false]) && |StillOn(reg, e[k := false])| < |StillOn(reg, e)|
  {
    hide Doomed;
    DependentIsDoomed(reg, o, k, d);
    FewerOn(reg, e, k);
  }

  lemma FewerOn<K>(reg: Registry<K>, e: Effective<K>, k: K)
    requires k in reg.keys && !Off(e, k)
    ensures |StillOn(reg, e[k := false])| < |StillOn(reg, e)|
  {
    assert k in StillOn(reg, e) && k !in StillOn(reg, e[k := false]);
    Subset(StillOn(reg, e[k := false]), StillOn(reg, e));
  }

  /** A settled state is off exactly where the registry says. */
  lemma SettledIsExact<K(!new)>(reg: Registry<K>, o: Overrides<K>, e: Effective<K>, k: K)
    requires Closed(reg) && Between(reg, o, e) && Settled(reg, e, |reg.keys|) && k in reg.keys
    ensures Off(e, k) <==> Doomed(reg, o, k)
  {
    var s := set x | x in reg.keys && Off(e, x);
    assert Fixpoint(reg, o, s);
    if Doomed(reg, o, k) {
      DoomedIsLeast(reg, o, s, k);
    }
  }

  lemma AllOffIsSettled<K(!new)>(reg: Registry<K>, e: Effective<K>)
    requires |StillOn(reg, e)| == 0
    ensures Settled(reg, e, |reg.keys|)
  {
    forall i | 0 <= i < |reg.keys|
      ensures Off(e, reg.keys[i])
    {
      assert reg.keys[i] !in StillOn(reg, e);
    }
  }

  method Defaults<K(==, !new)>(reg: Registry<K>, o: Overrides<K>) returns (e: Effective<K>)
    ensures Covers(reg, e)
    ensures forall k :: k in reg.keys ==> e[k] == !Off(o, k)
  {
    e := map[];
    var i := 0;
    while i < |reg.keys|
      invariant 0 <= i <= |reg.keys|
      invariant forall k :: k in reg.keys[..i] ==> k in e && e[k] == !Off(o, k)
    {
      var key := reg.keys[i];
      e := e[key := if key in o then o[key] else true];
      assert reg.keys[..i + 1] == reg.keys[..i] + [key];
      i := i + 1;
    }
    assert reg.keys[..i] == reg.keys;
  }

  /** One pass of the inner loop. */
  method Pass<K(==, !new)>(reg: Registry<K>, o: Overrides<K>, before: Effective<K>)
      returns (effective: Effective<K>, changed: bool)
    requires Closed(reg) && Between(reg, o, before)
    ensures Between(reg, o, effective)
    ensures changed ==> |StillOn(reg, effective)| < |StillOn(reg, before)|
    ensures !changed ==> effective == before && Settled(reg, effective, |reg.keys|)
  {
    hide Doomed, StillOn;
    effective, changed := before, false;
    var i := 0;
    while i < |reg.keys|
      invariant 0 <= i <= |reg.keys|
      invariant Between(reg, o, effective)
      invariant changed ==> |StillOn(reg, effective)| < |StillOn(reg, before)|
      invariant !changed ==> effective == before && Settled(reg, effective, i)
    {
      var key := reg.keys[i];
      if effective[key] {
        if exists d :: d in reg.def(key).dependsOn && !effective[d] {
          ghost var d :| d in reg.def(key).dependsOn && !effective[d];
          SwitchedOff(reg, o, effective, key, d);
          effective := effective[key := false];
          changed := true;
        }
      }
      i := i + 1;
    }
  }

  /** The bounded loop reaches the least fixpoint: a key is listed exactly when it is doomed. */
  method ResolveDisabled<K(==, !new)>(reg: Registry<K>, o: Overrides<K>) returns (disabled: seq<K>)
    requires Closed(reg)
    ensures disabled == Listed(reg, o, reg.keys)
    ensures forall k :: IsFeatureEnabled(disabled, k) <==> !(k in reg.keys && Doomed(reg, o, k))
  {
    var effective := Defaults(reg, o);
    DefaultsAreBetween(reg, o, effective);
    AtMostAllOn(reg, effective);
    var pass := 0;
    ghost var settled := false;
    while pass < |reg.keys|
      invariant 0 <= pass <= |reg.keys|
      invariant Between(reg, o, effective)
      invariant |StillOn(reg, effective)| <= |reg.keys| - pass
      invariant !settled
    {
      var changed;
      effective, changed := Pass(reg, o, effective);
      if !changed {
        settled := true;
        break;
      }
      pass := pass + 1;
    }
    if !settled {
      AllOffIsSettled(reg, effective);
    }
    disabled := WhereOff(reg, o, effective);
  }

  lemma DefaultsAreBetween<K(!new)>(reg: Registry<K>, o: Overrides<K>, e: Effective<K>)
    requires Covers(reg, e) && forall k :: k in reg.keys ==> e[k] == !Off(o, k)
    ensures Between(reg, o, e)
  {
    forall k | k in reg.keys && Off(e, k)
      ensures Doomed(reg, o, k)
    {
      OffIsDoomed(reg, o, k);
    }
  }

  method WhereOff<K(==, !new)>(reg: Registry<K>, ghost o: Overrides<K>, e: Effective<K>) returns (off: seq<K>)
    requires Closed(reg) && Between(reg, o, e) && Settled(reg, e, |reg.keys|)
    ensures off == Listed(reg, o, reg.keys)
  {
    off := [];
    var i := 0;
    while i < |reg.keys|
      invariant 0 <= i <= |reg.keys|
      invariant off == Listed(reg, o, reg.keys[..i])
    {
      SettledIsExact(reg, o, e, reg.keys[i]);
      assert reg.keys[..i + 1][..i] == reg.keys[..i];
      if !e[reg.keys[i]] {
        off := off + [reg.keys[i]];
      }
      i := i + 1;
    }
    assert reg.keys[..i] == reg.keys;
  }

  // ---------------------------------------------------------------- corollaries

  /** Only the registry's graph matters, not the order its keys are listed in. */
  lemma OrderDoesNotMatter<K(!new)>(reg: Registry<K>, other: Registry<K>, o: Overrides<K>, k: K)
    requires reg.def == other.def && (forall x :: x in reg.keys <==> x in other.keys)
    ensures Doomed(reg, o, k) <==> Doomed(other, o, k)
  {
    assert forall path, to :: ChainBetween(reg, path, k, to) <==> ChainBetween(other, path, k, to);
    assert forall to :: Reaches(reg, k, to) <==> Reaches(other, k, to);
  }

  /** Switching more off never switches anything on. */
  lemma MoreOffMoreDisabled<K(!new)>(reg: Registry<K>, o: Overrides<K>, more: Overrides<K>, k: K)
    requires forall x :: Off(o, x) ==> Off(more, x)
    requires Doomed(reg, o, k)
    ensures Doomed(reg, more, k)
  {
    var to :| Off(o, to) && Reaches(reg, k, to);
    assert Off(more, to);
  }

  /** Overriding off what is disabled anyway disables nothing further. */
  lemma ResolvingTwice<K(!new)>(reg: Registry<K>, o: Overrides<K>, again: Overrides<K>, k: K)
    requires forall x :: Off(again, x) <==> x in reg.keys && Doomed(reg, o, x)
    ensures k in reg.keys ==> (Doomed(reg, again, k) <==> Doomed(reg, o, k))
  {
    if Doomed(reg, again, k) {
      var mid :| Off(again, mid) && Reaches(reg, k, mid);
      var to :| Off(o, to) && Reaches(reg, mid, to);
      ReachesTransitive(reg, k, mid, to);
    }
    if k in reg.keys && Doomed(reg, o, k) {
      OffIsDoomed(reg, again, k);
    }
  }

  /** With nothing overridden off, everything is on. */
  lemma {:induction false} NothingOff<K(!new)>(reg: Registry<K>, o: Overrides<K>, keys: seq<K>)
    requires forall x :: !Off(o, x)
    ensures Listed(reg, o, keys) == []
  {
    if keys != [] {
      NothingOff(reg, o, keys[..|keys| - 1]);
    }
  }

  // ---------------------------------------------------------------- presets

  predicate Switchable<K>(reg: Registry<K>, k: K) { reg.def(k).wired && reg.def(k).uiSwitch }

  /** The keys that one preset entry writes: itself, or the switchable leaves of an unwired module row. */
  predicate Writes<K(==)>(reg: Registry<K>, entry: K, k: K) {
    && entry in reg.keys
    && reg.def(entry).uiSwitch
    && if reg.def(entry).wired then k == entry
       else entry in reg.modules && k in reg.keys && k != entry && reg.def(k).module_ == entry && Switchable(reg, k)
  }

  datatype Entry<K> = Entry(key: K, value: bool)

  /** Entry `i` is the last one to write `k`. */
  ghost predicate LastWrite<K>(reg: Registry<K>, entries: seq<Entry<K>>, i: nat, k: K) {
    && i < |entries|
    && Writes(reg, entries[i].key, k)
    && forall j :: i < j < |entries| ==> !Writes(reg, entries[j].key, k)
  }

  /** What the entries amount to: each key's last write counts. */
  ghost predicate Amounts<K(!new)>(reg: Registry<K>, entries: seq<Entry<K>>, o: Overrides<K>) {
    && (forall i, k :: 0 <= i < |entries| && Writes(reg, entries[i].key, k) ==> k in o)
    && (forall k :: k in o ==> exists i: nat :: LastWrite(reg, entries, i, k) && o[k] == entries[i].value)
  }

  method Put<K(==, !new)>(reg: Registry<K>, before: Overrides<K>, entry: Entry<K>) returns (o: Overrides<K>)
    requires forall k :: k in reg.modules ==> k in reg.keys
    ensures forall k :: Writes(reg, entry.key, k) ==> k in o && o[k] == entry.value
    ensures forall k :: !Writes(reg, entry.key, k) ==> (k in o <==> k in before) && (k in o ==> o[k] == before[k])
  {
    o := before;
    if entry.key !in reg.keys || !reg.def(entry.key).uiSwitch {
      return;
    }
    if reg.def(entry.key).wired {
      o := o[entry.key := entry.value];
      return;
    }
    if entry.key in reg.modules {
      var i := 0;
      while i < |reg.keys|
        invariant 0 <= i <= |reg.keys|
        invariant forall k :: k in reg.keys[..i] && Writes(reg, entry.key, k) ==> k in o && o[k] == entry.value
        invariant forall k :: !(k in reg.keys[..i] && Writes(reg, entry.key, k)) ==>
                                (k in o <==> k in before) && (k in o ==> o[k] == before[k])
      {
        var leaf := reg.keys[i];
        assert reg.keys[..i + 1] == reg.keys[..i] + [leaf];
        if leaf != entry.key && reg.def(leaf).module_ == entry.key && reg.def(leaf).wired && reg.def(leaf).uiSwitch {
          o := o[leaf := entry.value];
        }
        i := i + 1;
      }
      assert reg.keys[..i] == reg.keys;
    }
  }

  lemma OneMoreEntry<K(!new)>(reg: Registry<K>, entries: seq<Entry<K>>, e: Entry<K>, before: Overrides<K>, o: Overrides<K>)
    requires Amounts(reg, entries, before)
    requires forall k :: Writes(reg, e.key, k) ==> k in o && o[k] == e.value
    requires forall k :: !Writes(reg, e.key, k) ==> (k in o <==> k in before) && (k in o ==> o[k] == before[k])
    ensures Amounts(reg, entries + [e], o)
  {
    hide Writes;
    var more := entries + [e];
    forall k | k in o
      ensures exists i: nat :: LastWrite(reg, more, i, k) && o[k] == more[i].value
    {
      if Writes(reg, e.key, k) {
        assert LastWrite(reg, more, |entries|, k);
      } else {
        var i: nat :| LastWrite(reg, entries, i, k) && before[k] == entries[i].value;
        assert LastWrite(reg, more, i, k);
      }
    }
  }

  lemma NoEntries<K(!new)>(reg: Registry<K>, entries: seq<Entry<K>>, o: Overrides<K>)
    requires entries == [] && o == map[]
    ensures Amounts(reg, entries, o)
  {
  }

  method ApplicablePreset<K(==, !new)>(reg: Registry<K>, source: seq<Entry<K>>) returns (applicable: Overrides<K>)
    requires forall k :: k in reg.modules ==> k in reg.keys
    ensures Amounts(reg, source, applicable)
  {
    hide Amounts;
    applicable := map[];
    assert Amounts(reg, source[..0], applicable) by { NoEntries(reg, source[..0], applicable); }
    var i := 0;
    while i < |source|
      invariant 0 <= i <= |source|
      invariant Amounts(reg, source[..i], applicable)
    {
      ghost var before := applicable;
      applicable := Put(reg, applicable, source[i]);
      OneMoreEntry(reg, source[..i], source[i], before, applicable);
      assert source[..i] + [source[i]] == source[..i + 1];
      i := i + 1;
    }
    assert source[..i] == source;
  }

  /** The preset as it is written, read as overrides. */
  ghost predicate Raw<K(!new)>(source: seq<Entry<K>>, o: Overrides<K>) {
    && (forall i :: 0 <= i < |source| ==> source[i].key in o && o[source[i].key] == source[i].value)
    && (forall k :: k in o ==> exists i :: 0 <= i < |source| && source[i].key == k)
  }

  ghost predicate AllFalse<K>(source: seq<Entry<K>>) {
    forall i :: 0 <= i < |source| ==> !source[i].value
  }

  /** Every key of the registry depends, through some chain, on its module row. */
  ghost predicate Anchored<K(!new)>(reg: Registry<K>) {
    forall k :: k in reg.keys ==> Reaches(reg, k, reg.def(k).module_)
  }

  /** Only keys that the server accepts are written. */
  lemma WritesSwitchable<K(!new)>(reg: Registry<K>, source: seq<Entry<K>>, o: Overrides<K>, k: K)
    requires Amounts(reg, source, o) && k in o
    ensures k in reg.keys && Switchable(reg, k)
  {
  }

  /** Applying a preset of offs disables nothing that the preset as written would not. */
  lemma DisablesNoMore<K(!new)>(reg: Registry<K>, source: seq<Entry<K>>, raw: Overrides<K>, o: Overrides<K>, k: K)
    requires Anchored(reg) && AllFalse(source) && Raw(source, raw) && Amounts(reg, source, o)
    requires Doomed(reg, o, k)
    ensures Doomed(reg, raw, k)
  {
    hide Reaches;
    var to :| Off(o, to) && Reaches(reg, k, to);
    var i: nat :| LastWrite(reg, source, i, to) && o[to] == source[i].value;
    var entry := source[i].key;
    assert Off(raw, entry);
    ReachesEntry(reg, entry, to);
    ReachesTransitive(reg, k, to, entry);
  }

  lemma ReachesEntry<K(!new)>(reg: Registry<K>, entry: K, k: K)
    requires Anchored(reg) && Writes(reg, entry, k)
    ensures Reaches(reg, k, entry)
  {
    hide Reaches;
    if k == entry {
      ReachesSelf(reg, k);
    }
  }

  /** The preset names a key itself, or names its module row and that is a switch. */
  ghost predicate Names<K>(reg: Registry<K>, source: seq<Entry<K>>, k: K) {
    exists i :: 0 <= i < |source| && NamedBy(reg, source[i].key, k)
  }

  predicate NamedBy<K(==)>(reg: Registry<K>, entry: K, k: K) {
    entry in reg.keys &&
    (entry == k || (entry == reg.def(k).module_ && entry in reg.modules && reg.def(entry).uiSwitch))
  }

  /** And it disables every switchable key that the preset names so. */
  lemma DisablesWhatIsNamed<K(!new)>(reg: Registry<K>, source: seq<Entry<K>>, o: Overrides<K>, k: K)
    requires Anchored(reg) && AllFalse(source) && Amounts(reg, source, o)
    requires k in reg.keys && Switchable(reg, k) && Names(reg, source, k)
    ensures Doomed(reg, o, k)
  {
    hide Reaches, Writes, NamedBy, Switchable;
    var i :| 0 <= i < |source| && NamedBy(reg, source[i].key, k);
    NamedIsWritten(reg, source[i].key, k);
    var written := if Writes(reg, source[i].key, k) then k else source[i].key;
    assert Writes(reg, source[i].key, written);
    assert written in o;
    var j: nat :| LastWrite(reg, source, j, written) && o[written] == source[j].value;
    ReachesSelf(reg, k);
    assert Off(o, written) && Reaches(reg, k, written);
  }

  lemma NamedIsWritten<K(!new)>(reg: Registry<K>, entry: K, k: K)
    requires k in reg.keys && Switchable(reg, k) && NamedBy(reg, entry, k)
    ensures Writes(reg, entry, k) || (Writes(reg, entry, entry) && entry == reg.def(k).module_)
  {
  }

  /** Translation leaves a preset as it is exactly when the preset names switchable keys only. */
  lemma TranslationIsIdentity<K(!new)>(reg: Registry<K>, source: seq<Entry<K>>, raw: Overrides<K>, o: Overrides<K>)
    requires Raw(source, raw) && Amounts(reg, source, o)
    ensures o == raw <==> forall i :: 0 <= i < |source| ==> source[i].key in reg.keys && Switchable(reg, source[i].key)
  {
    if o == raw {
      forall i | 0 <= i < |source|
        ensures source[i].key in reg.keys && Switchable(reg, source[i].key)
      {
        WritesSwitchable(reg, source, o, source[i].key);
      }
    } else if forall i :: 0 <= i < |source| ==> source[i].key in reg.keys && Switchable(reg, source[i].key) {
      SwitchableUnchanged(reg, source, raw, o);
    }
  }

  lemma SwitchableUnchanged<K(!new)>(reg: Registry<K>, source: seq<Entry<K>>, raw: Overrides<K>, o: Overrides<K>)
    requires Raw(source, raw) && Amounts(reg, source, o)
    requires forall i :: 0 <= i < |source| ==> source[i].key in reg.keys && Switchable(reg, source[i].key)
    ensures o == raw
  {
    forall k | k in o
      ensures k in raw && o[k] == raw[k]
    {
      var i: nat :| LastWrite(reg, source, i, k) && o[k] == source[i].value;
      assert source[i].key == k;
    }
    forall k | k in raw
      ensures k in o
    {
      var i :| 0 <= i < |source| && source[i].key == k;
      assert Writes(reg, source[i].key, k);
    }
  }
}
