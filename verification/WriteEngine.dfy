/**
 The write engine: stable grouping of items by route, and the guard that keeps concurrent writers from
 creating the shared receipt tab twice.
 */
module WriteEngine {
  import opened Text

  // ---- Grouping ----

  /** The keys of the items, each once, in the order they first appear. */
  function Keys<T>(items: seq<T>, keyOf: T -> string): seq<string> {
    if items == [] then []
    else
      var before := Keys(items[..|items| - 1], keyOf);
      var key := keyOf(items[|items| - 1]);
      if key in before then before else before + [key]
  }

  /** The items of one key, in their order. */
  function OfKey<T>(items: seq<T>, keyOf: T -> string, key: string): seq<T> {
    if items == [] then []
    else OfKey(items[..|items| - 1], keyOf, key) + if keyOf(items[|items| - 1]) == key then [items[|items| - 1]] else []
  }

  lemma {:induction false} KeysMeaning<T>(items: seq<T>, keyOf: T -> string)
    ensures forall i, j :: 0 <= i < j < |Keys(items, keyOf)| ==> Keys(items, keyOf)[i] != Keys(items, keyOf)[j]
    ensures forall k :: k in Keys(items, keyOf) <==> exists i :: 0 <= i < |items| && keyOf(items[i]) == k
  {
    if items != [] {
      KeysMeaning(items[..|items| - 1], keyOf);
      var last := items[|items| - 1];
      forall k | k in Keys(items, keyOf)
        ensures exists i :: 0 <= i < |items| && keyOf(items[i]) == k
      {
        if k != keyOf(last) {
          var i :| 0 <= i < |items| - 1 && keyOf(items[..|items| - 1][i]) == k;
          assert items[i] == items[..|items| - 1][i];
        }
      }
      forall i | 0 <= i < |items|
        ensures keyOf(items[i]) in Keys(items, keyOf)
      {
        if i < |items| - 1 {
          assert items[..|items| - 1][i] == items[i];
        }
      }
    }
  }

  /** The groups behind a list of keys. */
  ghost predicate Groups<T>(items: seq<T>, keyOf: T -> string, keys: seq<string>, groups: seq<seq<T>>) {
    |groups| == |keys| && forall g :: 0 <= g < |groups| ==> groups[g] == OfKey(items, keyOf, keys[g])
  }

  /** One more item goes to the end of its group and leaves the others alone. */
  lemma OfKeyStep<T>(items: seq<T>, keyOf: T -> string, i: nat, key: string)
    requires i < |items|
    ensures OfKey(items[..i + 1], keyOf, key) == OfKey(items[..i], keyOf, key) + if keyOf(items[i]) == key then [items[i]] else []
    ensures Keys(items[..i + 1], keyOf) ==
            if keyOf(items[i]) in Keys(items[..i], keyOf) then Keys(items[..i], keyOf) else Keys(items[..i], keyOf) + [keyOf(items[i])]
  {
    assert items[..i + 1][..i] == items[..i];
  }

  /** A group holds exactly the items of its key. */
  lemma {:induction false} OfKeyMembers<T>(items: seq<T>, keyOf: T -> string, key: string, item: T)
    ensures item in OfKey(items, keyOf, key) <==> item in items && keyOf(item) == key
  {
    if items != [] {
      OfKeyMembers(items[..|items| - 1], keyOf, key, item);
      assert items == items[..|items| - 1] + [items[|items| - 1]];
    }
  }

  lemma {:induction false} OfKeyAbsent<T>(items: seq<T>, keyOf: T -> string, key: string)
    requires key !in Keys(items, keyOf)
    ensures OfKey(items, keyOf, key) == []
  {
    if items != [] {
      OfKeyAbsent(items[..|items| - 1], keyOf, key);
    }
  }

  /** The groups appear in first-seen order of their keys, and each holds its items in the order they came. */
  method GroupByRouteKey<T>(items: seq<T>, keyOf: T -> string) returns (groups: seq<seq<T>>)
    ensures Groups(items, keyOf, Keys(items, keyOf), groups)
  {
    var keys: seq<string> := [];
    groups := [];
    for i := 0 to |items|
      invariant keys == Keys(items[..i], keyOf) && Groups(items[..i], keyOf, keys, groups)
    {
      hide Keys, OfKey, Groups;
      var key := keyOf(items[i]);
      if key in keys {
        var g :| 0 <= g < |keys| && keys[g] == key;
        SeenKeyStep(items, keyOf, i, groups, g);
        groups := groups[g := groups[g] + [items[i]]];
      } else {
        NewKeyStep(items, keyOf, i, groups);
        keys := keys + [key];
        groups := groups + [[items[i]]];
      }
    }
    assert items[..|items|] == items;
  }

  lemma SeenKeyStep<T>(items: seq<T>, keyOf: T -> string, i: nat, groups: seq<seq<T>>, g: nat)
    requires i < |items| && Groups(items[..i], keyOf, Keys(items[..i], keyOf), groups)
    requires g < |Keys(items[..i], keyOf)| && Keys(items[..i], keyOf)[g] == keyOf(items[i])
    ensures Keys(items[..i + 1], keyOf) == Keys(items[..i], keyOf) && g < |groups|
    ensures Groups(items[..i + 1], keyOf, Keys(items[..i], keyOf), groups[g := groups[g] + [items[i]]])
  {
    var keys := Keys(items[..i], keyOf);
    var next := groups[g := groups[g] + [items[i]]];
    KeysMeaning(items[..i], keyOf);
    OfKeyStep(items, keyOf, i, keyOf(items[i]));
    forall h | 0 <= h < |next|
      ensures next[h] == OfKey(items[..i + 1], keyOf, keys[h])
    {
      OfKeyStep(items, keyOf, i, keys[h]);
    }
  }

  lemma NewKeyStep<T>(items: seq<T>, keyOf: T -> string, i: nat, groups: seq<seq<T>>)
    requires i < |items| && Groups(items[..i], keyOf, Keys(items[..i], keyOf), groups)
    requires keyOf(items[i]) !in Keys(items[..i], keyOf)
    ensures Keys(items[..i + 1], keyOf) == Keys(items[..i], keyOf) + [keyOf(items[i])]
    ensures Groups(items[..i + 1], keyOf, Keys(items[..i], keyOf) + [keyOf(items[i])], groups + [[items[i]]])
  {
    var keys := Keys(items[..i], keyOf);
    var next := groups + [[items[i]]];
    OfKeyAbsent(items[..i], keyOf, keyOf(items[i]));
    OfKeyStep(items, keyOf, i, keyOf(items[i]));
    forall h | 0 <= h < |next|
      ensures next[h] == OfKey(items[..i + 1], keyOf, (keys + [keyOf(items[i])])[h])
    {
      OfKeyStep(items, keyOf, i, (keys + [keyOf(items[i])])[h]);
    }
  }

  // ---- The initialization guard ----

  type Writer = nat

  /**
   `present` is whether the shared tab exists, `seen` what each writer's context says, `holder` the writer
   inside the locked section and whether it has refreshed, `created` how many creations were sent.
   */
  datatype Shared = Shared(present: bool, seen: map<Writer, bool>, holder: Option<(Writer, bool)>, created: nat)

  /**
   A writer reads ahead, writes at once because its context says present, or takes the lock, refreshes and
   writes under it. A write under the lock may fail before it has any effect.
   */
  datatype Step =
    | Preflight(w: Writer)
    | WritePresent(w: Writer)
    | TakeLock(w: Writer)
    | Refresh
    | WriteLocked(fails: bool)

  function Next(s: Shared, step: Step): Shared {
    match step
    case Preflight(w) => if s.holder.Some? && s.holder.value.0 == w then s else s.(seen := s.seen[w := s.present])
    case WritePresent(w) => s
    case TakeLock(w) => if s.holder.None? && w in s.seen && !s.seen[w] then s.(holder := Some((w, false))) else s
    case Refresh =>
      (match s.holder
       case Some((w, false)) => s.(seen := s.seen[w := s.present], holder := Some((w, true)))
       case _ => s)
    case WriteLocked(fails) =>
      (match s.holder
       case Some((w, true)) =>
         if fails || w !in s.seen || s.seen[w] then s.(holder := None)
         else Shared(true, s.seen, None, s.created + 1)
       case _ => s)
  }

  function RunAll(s: Shared, steps: seq<Step>): Shared
    decreases |steps|
  {
    if steps == [] then s else RunAll(Next(s, steps[0]), steps[1..])
  }

  /** A creation has happened exactly when the tab is there, and a refreshed holder's context is current. */
  predicate Guarded(s: Shared) {
    && s.created == (if s.present then 1 else 0)
    && (s.holder.Some? && s.holder.value.1 ==> s.holder.value.0 in s.seen && s.seen[s.holder.value.0] == s.present)
  }

  /** However writers with stale contexts interleave, the tab is created at most once. */
  lemma {:induction false} CreatedOnce(s: Shared, steps: seq<Step>)
    requires Guarded(s)
    ensures Guarded(RunAll(s, steps)) && RunAll(s, steps).created <= 1
    decreases |steps|
  {
    if steps != [] {
      CreatedOnce(Next(s, steps[0]), steps[1..]);
    }
  }

  /** A writer that meets no other creates the tab exactly when it is not there yet; a failed attempt can be repeated. */
  lemma LoneWriterCreates(s: Shared, w: Writer, failures: nat)
    requires Guarded(s) && s.holder.None?
    ensures var n := Attempts(s, w, failures);
            && n.holder.None? && n.present == s.present && n.created == s.created
            && Attempt(n, w, false).present && Attempt(n, w, false).created == 1 && Attempt(n, w, false).holder.None?
    decreases failures
  {
    AttemptMeaning(s, w);
    if failures > 0 {
      LoneWriterCreates(Attempt(s, w, true), w, failures - 1);
    }
  }

  /** One attempt of a writer: read ahead, take the lock, refresh and write under it. */
  function Attempt(s: Shared, w: Writer, fails: bool): Shared {
    Next(Next(Next(Next(s, Preflight(w)), TakeLock(w)), Refresh), WriteLocked(fails))
  }

  function Attempts(s: Shared, w: Writer, failures: nat): Shared
    decreases failures
  {
    if failures == 0 then s else Attempts(Attempt(s, w, true), w, failures - 1)
  }

  lemma AttemptMeaning(s: Shared, w: Writer)
    requires Guarded(s) && s.holder.None?
    ensures var failed, done := Attempt(s, w, true), Attempt(s, w, false);
            && failed.present == s.present && failed.created == s.created && failed.holder.None? && Guarded(failed)
            && done.present && done.created == 1 && done.holder.None?
  {
  }
}
