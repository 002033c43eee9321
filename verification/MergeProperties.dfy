/** What the merge of condition lists guarantees: it refines the pointwise merge of maps, and only moves forward. */
module MergeProperties {
  import opened Conditions

  // Unique lists and their maps.

  lemma {:induction false} EntryAt(conds: seq<Condition>, i: nat)
    requires i < |conds|
    ensures conds[i].kind in Entries(conds)
    ensures UniqueKinds(conds) ==> Entries(conds)[conds[i].kind] == conds[i]
  {
    var n := |conds| - 1;
    if i < n {
      EntryAt(conds[..n], i);
    }
  }

  lemma {:induction false} EntryFrom(conds: seq<Condition>, kind: ConditionType) returns (i: nat)
    requires kind in Entries(conds)
    ensures i < |conds| && conds[i] == Entries(conds)[kind] && conds[i].kind == kind
  {
    var n := |conds| - 1;
    if conds[n].kind == kind {
      i := n;
    } else {
      i := EntryFrom(conds[..n], kind);
    }
  }

  lemma EntryKinds(conds: seq<Condition>)
    ensures forall k | k in Entries(conds) :: Entries(conds)[k].kind == k
  {
    forall k | k in Entries(conds) ensures Entries(conds)[k].kind == k {
      var i := EntryFrom(conds, k);
    }
  }

  /** A unique list is described completely by the map of its entries. */
  lemma EntriesAre(conds: seq<Condition>, m: map<ConditionType, Condition>)
    requires UniqueKinds(conds)
    requires forall i | 0 <= i < |conds| :: conds[i].kind in m && m[conds[i].kind] == conds[i]
    requires forall k | k in m :: m[k] in conds && m[k].kind == k
    ensures Entries(conds) == m
  {
    forall k | k in Entries(conds) ensures k in m && Entries(conds)[k] == m[k] {
      var i := EntryFrom(conds, k);
    }
    forall k | k in m ensures k in Entries(conds) {
      var i :| 0 <= i < |conds| && conds[i] == m[k];
      EntryAt(conds, i);
    }
  }

  lemma SetAt(conds: seq<Condition>, c: Condition, i: nat)
    requires UniqueKinds(conds) && i < |conds| && conds[i].kind == c.kind
    ensures SetStatusCondition(conds, c) == conds[i := Adopt(conds[i], c)]
  {
  }

  lemma SetNew(conds: seq<Condition>, c: Condition)
    requires c.kind !in Entries(conds)
    ensures SetStatusCondition(conds, c) == conds + [c]
  {
    var i := IndexOf(conds, c.kind);
    if i < |conds| {
      EntryAt(conds, i);
    }
  }

  /** Updating one condition of a list updates exactly that entry of its map. */
  lemma UpdateRefinesMap(conds: seq<Condition>, kind: ConditionType, status: ConditionStatus, now: int)
    requires UniqueKinds(conds)
    ensures var updated := SetStatusCondition(conds, Condition(kind, status, now, Reason(kind, status)));
            UniqueKinds(updated) && AsMap(updated) == MapUpdate(AsMap(conds), kind, status, now)
  {
    var c := Condition(kind, status, now, Reason(kind, status));
    var m := Entries(conds);
    if kind in m {
      var i := EntryFrom(conds, kind);
      SetAt(conds, c, i);
      EntriesOfSet(conds, i, Adopt(conds[i], c));
    } else {
      SetNew(conds, c);
      AppendUnique(conds, c);
    }
  }

  lemma AppendUnique(conds: seq<Condition>, c: Condition)
    requires UniqueKinds(conds) && c.kind !in Entries(conds)
    ensures UniqueKinds(conds + [c])
    ensures Entries(conds + [c]) == Entries(conds)[c.kind := c]
  {
    forall i | 0 <= i < |conds| ensures conds[i].kind != c.kind {
      EntryAt(conds, i);
    }
    assert (conds + [c])[..|conds|] == conds;
  }

  lemma EntriesOfSet(conds: seq<Condition>, i: nat, c: Condition)
    requires UniqueKinds(conds) && i < |conds| && conds[i].kind == c.kind
    ensures UniqueKinds(conds[i := c])
    ensures Entries(conds[i := c]) == Entries(conds)[c.kind := c]
  {
    var r, m := conds[i := c], Entries(conds)[c.kind := c];
    forall j | 0 <= j < |r| ensures r[j].kind in m && m[r[j].kind] == r[j] {
      EntryAt(conds, j);
    }
    forall k | k in m ensures m[k] in r && m[k].kind == k {
      if k == c.kind {
        assert r[i] == m[k];
      } else {
        var j := EntryFrom(conds, k);
        assert r[j] == m[k];
      }
    }
    EntriesAre(r, m);
  }

  // The list that a merge produces: every old entry in its place, then the new kinds in proposal order.

  function Resolve(x: Condition, proposed: map<ConditionType, Condition>): (r: Condition)
    ensures r.kind == x.kind
  {
    if x.kind in proposed && Newer(Seen(x), Seen(proposed[x.kind])) then Adopt(x, proposed[x.kind]) else x
  }

  function Kept(conds: seq<Condition>, proposed: map<ConditionType, Condition>): (kept: seq<Condition>)
    ensures |kept| == |conds|
  {
    seq(|conds|, i requires 0 <= i < |conds| => Resolve(conds[i], proposed))
  }

  /** The proposed conditions of kinds that are not there yet. */
  function Added(existing: map<ConditionType, Condition>, proposed: seq<Condition>): seq<Condition> {
    if proposed == [] then []
    else
      var p := proposed[|proposed| - 1];
      var added := Added(existing, proposed[..|proposed| - 1]);
      if p.kind in existing then added else added + [p]
  }

  lemma {:induction false} AddedMembers(existing: map<ConditionType, Condition>, proposed: seq<Condition>)
    ensures forall c :: c in Added(existing, proposed) <==> c in proposed && c.kind !in existing
  {
    if proposed == [] {
    } else {
      var n := |proposed| - 1;
      AddedMembers(existing, proposed[..n]);
      assert proposed == proposed[..n] + [proposed[n]];
    }
  }

  lemma {:induction false} AddedUnique(existing: map<ConditionType, Condition>, proposed: seq<Condition>)
    requires UniqueKinds(proposed)
    ensures UniqueKinds(Added(existing, proposed))
  {
    if proposed == [] {
    } else {
      var n := |proposed| - 1;
      AddedUnique(existing, proposed[..n]);
      AddedMembers(existing, proposed[..n]);
      var added := Added(existing, proposed[..n]);
      forall i | 0 <= i < |added| ensures added[i].kind != proposed[n].kind {
        assert added[i] in proposed[..n];
      }
    }
  }

  lemma KeptStep(conds: seq<Condition>, proposed: map<ConditionType, Condition>, p: Condition, at: nat)
    requires UniqueKinds(conds) && p.kind !in proposed
    requires at < |conds| && conds[at].kind == p.kind
    ensures Kept(conds, proposed)[at] == conds[at]
    ensures Kept(conds, proposed[p.kind := p])
            == if Newer(Seen(conds[at]), Seen(p)) then Kept(conds, proposed)[at := Adopt(conds[at], p)]
               else Kept(conds, proposed)
  {
  }

  lemma KeptNone(conds: seq<Condition>)
    ensures Kept(conds, map[]) == conds
  {
  }

  lemma KeptStepNew(conds: seq<Condition>, proposed: map<ConditionType, Condition>, p: Condition)
    requires p.kind !in Entries(conds)
    ensures Kept(conds, proposed[p.kind := p]) == Kept(conds, proposed)
  {
    forall i | 0 <= i < |conds| ensures conds[i].kind != p.kind {
      EntryAt(conds, i);
    }
  }

  lemma NotProposedBefore(proposed: seq<Condition>)
    requires UniqueKinds(proposed) && proposed != []
    ensures proposed[|proposed| - 1].kind !in Entries(proposed[..|proposed| - 1])
  {
    var n := |proposed| - 1;
    if proposed[n].kind in Entries(proposed[..n]) {
      var i := EntryFrom(proposed[..n], proposed[n].kind);
      assert false;
    }
  }

  lemma {:induction false} MergeNormalForm(conds: seq<Condition>, proposed: seq<Condition>)
    requires UniqueKinds(conds) && UniqueKinds(proposed)
    ensures Merged(conds, proposed) == Kept(conds, Entries(proposed)) + Added(Entries(conds), proposed)
    ensures UniqueKinds(Merged(conds, proposed))
  {
    if proposed == [] {
      KeptNone(conds);
    } else {
      var n := |proposed| - 1;
      var p, front := proposed[n], proposed[..n];
      MergeNormalForm(conds, front);
      NotProposedBefore(proposed);
      KeptAndAddedUnique(conds, proposed);
      var kept, added := Kept(conds, Entries(front)), Added(Entries(conds), front);
      hide Kept, MergeStep, UniqueKinds;
      if p.kind in Entries(conds) {
        StepOfOldKind(conds, Entries(front), added, p);
      } else {
        StepOfNewKind(conds, Entries(front), added, p);
        assert kept + (added + [p]) == (kept + added) + [p];
      }
    }
  }

  lemma StepOfOldKind(conds: seq<Condition>, proposed: map<ConditionType, Condition>, added: seq<Condition>, p: Condition)
    requires UniqueKinds(conds) && UniqueKinds(Kept(conds, proposed) + added)
    requires p.kind !in proposed && p.kind in Entries(conds)
    ensures MergeStep(Entries(conds), Kept(conds, proposed) + added, p) == Kept(conds, proposed[p.kind := p]) + added
  {
    var kept := Kept(conds, proposed);
    var at := EntryFrom(conds, p.kind);
    KeptStep(conds, proposed, p, at);
    assert (kept + added)[at] == conds[at];
    SetAt(kept + added, p, at);
    hide Kept, Newer, Adopt, Seen, UniqueKinds, SetStatusCondition;
    assert (kept + added)[at := Adopt(conds[at], p)] == kept[at := Adopt(conds[at], p)] + added;
  }

  lemma StepOfNewKind(conds: seq<Condition>, proposed: map<ConditionType, Condition>, added: seq<Condition>, p: Condition)
    requires p.kind !in Entries(conds)
    ensures MergeStep(Entries(conds), Kept(conds, proposed) + added, p)
            == Kept(conds, proposed[p.kind := p]) + added + [p]
  {
    KeptStepNew(conds, proposed, p);
  }

  lemma KeptAndAddedUnique(conds: seq<Condition>, proposed: seq<Condition>)
    requires UniqueKinds(conds) && UniqueKinds(proposed)
    ensures UniqueKinds(Kept(conds, Entries(proposed)) + Added(Entries(conds), proposed))
  {
    var kept, added := Kept(conds, Entries(proposed)), Added(Entries(conds), proposed);
    AddedUnique(Entries(conds), proposed);
    AddedMembers(Entries(conds), proposed);
    forall i, j | 0 <= i < |kept| && 0 <= j < |added| ensures kept[i].kind != added[j].kind {
      EntryAt(conds, i);
      assert added[j] in added;
    }
  }

  /** Each kind after a merge: its old entry resolved, or else the proposed one. */
  lemma MergedEntries(conds: seq<Condition>, proposed: seq<Condition>)
    requires UniqueKinds(conds) && UniqueKinds(proposed)
    ensures Entries(Merged(conds, proposed))
            == map k | k in Entries(conds).Keys + Entries(proposed).Keys ::
                 if k in Entries(conds) then Resolve(Entries(conds)[k], Entries(proposed)) else Entries(proposed)[k]
  {
    hide MergeSteps, Resolve, Newer, Seen, Adopt, UniqueKinds, Entries;
    var e, q, r := Entries(conds), Entries(proposed), Merged(conds, proposed);
    var m := map k | k in e.Keys + q.Keys :: if k in e then Resolve(e[k], q) else q[k];
    MergeNormalForm(conds, proposed);
    forall i | 0 <= i < |r| ensures r[i].kind in m && m[r[i].kind] == r[i] {
      EntryOfMerged(conds, proposed, i);
    }
    forall k | k in m ensures m[k] in r && m[k].kind == k {
      KindOfMerged(conds, proposed, k);
    }
    EntriesAre(r, m);
  }

  lemma EntryOfMerged(conds: seq<Condition>, proposed: seq<Condition>, i: nat)
    requires UniqueKinds(conds) && UniqueKinds(proposed)
    requires i < |Kept(conds, Entries(proposed)) + Added(Entries(conds), proposed)|
    ensures var e, q := Entries(conds), Entries(proposed);
            var x := (Kept(conds, q) + Added(e, proposed))[i];
            if x.kind in e then x == Resolve(e[x.kind], q) else x.kind in q && x == q[x.kind]
  {
    hide Resolve, Entries, Added, UniqueKinds;
    var kept, added := Kept(conds, Entries(proposed)), Added(Entries(conds), proposed);
    if i < |conds| {
      EntryAt(conds, i);
      assert (kept + added)[i] == kept[i];
    } else {
      hide Kept;
      var c := added[i - |conds|];
      assert (kept + added)[i] == c && c in added;
      AddedMembers(Entries(conds), proposed);
      var j :| 0 <= j < |proposed| && proposed[j] == c;
      EntryAt(proposed, j);
    }
  }

  lemma KindOfMerged(conds: seq<Condition>, proposed: seq<Condition>, k: ConditionType)
    requires UniqueKinds(conds) && UniqueKinds(proposed)
    requires k in Entries(conds) || k in Entries(proposed)
    ensures var e, q := Entries(conds), Entries(proposed);
            var x := if k in e then Resolve(e[k], q) else q[k];
            x in Kept(conds, q) + Added(e, proposed) && x.kind == k
  {
    hide Resolve;
    var kept, added := Kept(conds, Entries(proposed)), Added(Entries(conds), proposed);
    if k in Entries(conds) {
      var i := EntryFrom(conds, k);
      assert (kept + added)[i] == Resolve(conds[i], Entries(proposed));
    } else {
      var j := EntryFrom(proposed, k);
      AddedMembers(Entries(conds), proposed);
      assert proposed[j] in added;
    }
  }

  /**
   * The in-place merge of lists refines the pointwise merge of maps, and its flag says exactly whether
   * the pointwise merge had anything to accept.
   */
  lemma MergeRefinesMap(conds: seq<Condition>, proposed: seq<Condition>)
    requires UniqueKinds(conds) && UniqueKinds(proposed)
    ensures UniqueKinds(Merged(conds, proposed))
    ensures AsMap(Merged(conds, proposed)) == MapMerge(AsMap(conds), AsMap(proposed))
    ensures AnyAccepted(Entries(conds), proposed) == MapNewer(AsMap(conds), AsMap(proposed))
  {
    MergeNormalForm(conds, proposed);
    MergedView(conds, proposed);
    FlagRefinesMap(conds, proposed);
  }

  /** What a reader sees of one type after a merge, and whether the merge reports news. */
  lemma MergedAt(conds: seq<Condition>, proposed: seq<Condition>, kind: ConditionType)
    requires UniqueKinds(conds) && UniqueKinds(proposed)
    ensures var before, offered, after := AsMap(conds), AsMap(proposed), AsMap(Merged(conds, proposed));
            && (kind in after <==> kind in before || kind in offered)
            && (kind in before ==>
                  after[kind] == if kind in offered && offered[kind].status != ConditionUnknown
                                    && before[kind].since < offered[kind].since
                                    && before[kind].status != offered[kind].status
                                 then offered[kind] else before[kind])
            && (kind in offered && kind !in before ==> after[kind] == offered[kind])
    ensures var before, offered := AsMap(conds), AsMap(proposed);
            AnyAccepted(Entries(conds), proposed)
            <==> exists k :: k in offered && (k !in before || (offered[k].status != ConditionUnknown
                                                               && before[k].since < offered[k].since))
  {
    MergeRefinesMap(conds, proposed);
    hide AsMap, Merged, AnyAccepted, UniqueKinds;
  }

  /** An entry that is there stays in its place; a newer one of its type sets the reason, and maybe the time. */
  lemma OldEntryMerged(conds: seq<Condition>, proposed: seq<Condition>, i: nat, j: nat)
    requires UniqueKinds(conds) && UniqueKinds(proposed)
    requires i < |conds| && j < |proposed| && proposed[j].kind == conds[i].kind
    ensures var x, p, r := conds[i], proposed[j], Merged(conds, proposed);
            && i < |r|
            && r[i] == if p.status != ConditionUnknown && x.since < p.since
                       then Condition(x.kind, p.status, if x.status == p.status then x.since else p.since, p.reason)
                       else x
  {
    MergeNormalForm(conds, proposed);
    EntryAt(proposed, j);
    hide Merged, UniqueKinds, Entries, Added;
    assert Merged(conds, proposed)[i] == Resolve(conds[i], Entries(proposed));
  }

  lemma MergedView(conds: seq<Condition>, proposed: seq<Condition>)
    requires UniqueKinds(conds) && UniqueKinds(proposed)
    ensures AsMap(Merged(conds, proposed)) == MapMerge(AsMap(conds), AsMap(proposed))
  {
    MergedEntries(conds, proposed);
    EntryKinds(conds);
    var left, right := AsMap(Merged(conds, proposed)), MapMerge(AsMap(conds), AsMap(proposed));
    assert left.Keys == right.Keys;
    forall k | k in left ensures left[k] == right[k] {
    }
  }

  lemma FlagRefinesMap(conds: seq<Condition>, proposed: seq<Condition>)
    requires UniqueKinds(proposed)
    ensures AnyAccepted(Entries(conds), proposed) == MapNewer(AsMap(conds), AsMap(proposed))
  {
    if MapNewer(AsMap(conds), AsMap(proposed)) {
      var k :| k in AsMap(proposed) && (k !in AsMap(conds) || Newer(AsMap(conds)[k], AsMap(proposed)[k]));
      var j := EntryFrom(proposed, k);
      assert proposed[j] in proposed && Accepted(Entries(conds), proposed[j]);
    }
    if AnyAccepted(Entries(conds), proposed) {
      var p :| p in proposed && Accepted(Entries(conds), p);
      var j :| 0 <= j < |proposed| && proposed[j] == p;
      EntryAt(proposed, j);
      assert p.kind in AsMap(proposed);
    }
  }

  /** As a map, the outcome does not depend on the order in which the conditions are proposed. */
  lemma MergeIgnoresOrder(conds: seq<Condition>, p: seq<Condition>, q: seq<Condition>)
    requires UniqueKinds(conds) && UniqueKinds(p) && UniqueKinds(q)
    requires multiset(p) == multiset(q)
    ensures AsMap(Merged(conds, p)) == AsMap(Merged(conds, q))
    ensures AnyAccepted(Entries(conds), p) == AnyAccepted(Entries(conds), q)
  {
    forall i | 0 <= i < |p| ensures p[i].kind in Entries(q) && Entries(q)[p[i].kind] == p[i] {
      assert p[i] in multiset(p);
      var j :| 0 <= j < |q| && q[j] == p[i];
      EntryAt(q, j);
    }
    forall k | k in Entries(q) ensures Entries(q)[k] in p && Entries(q)[k].kind == k {
      var j := EntryFrom(q, k);
      assert q[j] in multiset(q);
    }
    EntriesAre(p, Entries(q));
    MergeRefinesMap(conds, p);
    MergeRefinesMap(conds, q);
  }

  lemma NothingAdded(existing: map<ConditionType, Condition>, proposed: seq<Condition>)
    requires forall p | p in proposed :: p.kind in existing
    ensures Added(existing, proposed) == []
  {
    AddedMembers(existing, proposed);
    if Added(existing, proposed) != [] {
      assert Added(existing, proposed)[0] in Added(existing, proposed);
    }
  }

  /** Proposing the same conditions twice leaves the same list, reasons and order included, as once. */
  lemma MergeIdempotent(conds: seq<Condition>, proposed: seq<Condition>)
    requires UniqueKinds(conds) && UniqueKinds(proposed)
    ensures Merged(Merged(conds, proposed), proposed) == Merged(conds, proposed)
  {
    var r, q := Merged(conds, proposed), Entries(proposed);
    MergeNormalForm(conds, proposed);
    MergedEntries(conds, proposed);
    MergeNormalForm(r, proposed);
    forall i | 0 <= i < |r| ensures Resolve(r[i], q) == r[i] {
      EntryAt(r, i);
    }
    assert Kept(r, q) == r;
    forall p | p in proposed ensures p.kind in Entries(r) {
      var j :| 0 <= j < |proposed| && proposed[j] == p;
      EntryAt(proposed, j);
    }
    NothingAdded(Entries(r), proposed);
  }

  /** Accepting p changes nothing: it repeats the status and the reason that are stored already. */
  predicate Repeats(existing: map<ConditionType, Condition>, p: Condition) {
    p.kind in existing && existing[p.kind].status == p.status && existing[p.kind].reason == p.reason
  }

  /**
   * The flag may be raised although nothing changes. The list stays as it is exactly when all that is
   * accepted repeats what is stored; without the flag it always stays as it is.
   */
  lemma FlagWithoutChange(conds: seq<Condition>, proposed: seq<Condition>)
    requires UniqueKinds(conds) && UniqueKinds(proposed)
    ensures !AnyAccepted(Entries(conds), proposed) ==> Merged(conds, proposed) == conds
    ensures Merged(conds, proposed) == conds
            <==> forall p | p in proposed && Accepted(Entries(conds), p) :: Repeats(Entries(conds), p)
  {
    MergeNormalForm(conds, proposed);
    MergedEntries(conds, proposed);
    EntryKinds(conds);
    var e, q, r := Entries(conds), Entries(proposed), Merged(conds, proposed);
    if r == conds {
      forall p | p in proposed && Accepted(e, p) ensures Repeats(e, p) {
        var j :| 0 <= j < |proposed| && proposed[j] == p;
        EntryAt(proposed, j);
        assert p.kind in Entries(r);
      }
    }
    if forall p | p in proposed && Accepted(e, p) :: Repeats(e, p) {
      forall i | 0 <= i < |conds| ensures Resolve(conds[i], q) == conds[i] {
        EntryAt(conds, i);
        if conds[i].kind in q {
          var j := EntryFrom(proposed, conds[i].kind);
          assert proposed[j] in proposed;
        }
      }
      assert Kept(conds, q) == conds;
      NothingAdded(e, proposed);
    }
  }

  lemma FlagWithoutChangeExample()
    ensures var conds := [Condition(TeardownExecuted, ConditionFalse, 1, "TeardownExecutedFalse")];
            var proposed := [Condition(TeardownExecuted, ConditionFalse, 2, "TeardownExecutedFalse")];
            AnyAccepted(Entries(conds), proposed) && Merged(conds, proposed) == conds
  {
    var conds := [Condition(TeardownExecuted, ConditionFalse, 1, "TeardownExecutedFalse")];
    var proposed := [Condition(TeardownExecuted, ConditionFalse, 2, "TeardownExecutedFalse")];
    EntryAt(conds, 0);
    assert proposed[0] in proposed && Accepted(Entries(conds), proposed[0]);
    FlagWithoutChange(conds, proposed);
  }

  // Any number of proposals, one after the other.

  function MergeAll(conds: seq<Condition>, proposals: seq<seq<Condition>>): seq<Condition>
    decreases |proposals|
  {
    if proposals == [] then conds else MergeAll(Merged(conds, proposals[0]), proposals[1..])
  }

  /** Every condition of `before` is still there in `after`, in the same place, and has only moved forward. */
  ghost predicate Advanced(before: seq<Condition>, after: seq<Condition>) {
    && |before| <= |after|
    && forall i | 0 <= i < |before| ::
         && after[i].kind == before[i].kind
         && before[i].since <= after[i].since
         && (before[i].status != ConditionUnknown ==> after[i].status != ConditionUnknown)
         && (after[i].since == before[i].since ==> after[i].status == before[i].status)
  }

  /**
   * Whatever is proposed, however often: no condition is lost, duplicated or moved, none returns to
   * Unknown, and no transition time goes back.
   */
  lemma {:induction false} MergeAllAdvances(conds: seq<Condition>, proposals: seq<seq<Condition>>)
    requires UniqueKinds(conds)
    requires forall p | p in proposals :: UniqueKinds(p)
    ensures UniqueKinds(MergeAll(conds, proposals))
    ensures Advanced(conds, MergeAll(conds, proposals))
    decreases |proposals|
  {
    if proposals == [] {
    } else {
      MergeAdvances(conds, proposals[0]);
      var r := Merged(conds, proposals[0]);
      hide Merged, UniqueKinds;
      MergeAllAdvances(r, proposals[1..]);
    }
  }

  lemma MergeAdvances(conds: seq<Condition>, proposed: seq<Condition>)
    requires UniqueKinds(conds) && UniqueKinds(proposed)
    ensures UniqueKinds(Merged(conds, proposed)) && Advanced(conds, Merged(conds, proposed))
  {
    MergeNormalForm(conds, proposed);
    hide Merged, UniqueKinds, Entries, Added;
    var r := Merged(conds, proposed);
    assert forall i | 0 <= i < |conds| :: r[i] == Resolve(conds[i], Entries(proposed));
  }

  // Proposals with repeated kinds: the list stays unique unless a kind that is new is proposed twice.

  lemma {:induction false} StepsNormalForm(existing: map<ConditionType, Condition>, conds: seq<Condition>,
                                           proposed: seq<Condition>)
    requires existing == Entries(conds)
    ensures var r := MergeSteps(existing, conds, proposed);
            |r| == |conds| + |Added(existing, proposed)|
            && (forall i | 0 <= i < |conds| :: r[i].kind == conds[i].kind)
            && (forall i | 0 <= i < |Added(existing, proposed)| ::
                  r[|conds| + i].kind == Added(existing, proposed)[i].kind)
  {
    if proposed == [] {
    } else {
      var n := |proposed| - 1;
      StepsNormalForm(existing, conds, proposed[..n]);
      var before := MergeSteps(existing, conds, proposed[..n]);
      if proposed[n].kind in existing {
        var at := EntryFrom(conds, proposed[n].kind);
        assert before[at].kind == proposed[n].kind;
      }
    }
  }

  /**
   * For every list and every proposal, repeated kinds included: the merged list has unique kinds exactly
   * when the list had, and no kind that is new to it is proposed twice.
   */
  lemma UniqueExactly(conds: seq<Condition>, proposed: seq<Condition>)
    ensures UniqueKinds(Merged(conds, proposed))
            <==> UniqueKinds(conds) && UniqueKinds(Added(Entries(conds), proposed))
  {
    var e, r, n := Entries(conds), Merged(conds, proposed), |conds|;
    var added := Added(e, proposed);
    StepsNormalForm(e, conds, proposed);
    AddedMembers(e, proposed);
    hide Merged, MergeSteps, Added, Entries;
    forall i, j | 0 <= i < n && 0 <= j < |added| ensures conds[i].kind != added[j].kind {
      EntryAt(conds, i);
      assert added[j] in added;
    }
    KindsOfJoined(conds, added, r);
  }

  lemma KindsOfJoined(a: seq<Condition>, b: seq<Condition>, r: seq<Condition>)
    requires |r| == |a| + |b|
    requires forall i | 0 <= i < |a| :: r[i].kind == a[i].kind
    requires forall i | 0 <= i < |b| :: r[|a| + i].kind == b[i].kind
    requires forall i, j | 0 <= i < |a| && 0 <= j < |b| :: a[i].kind != b[j].kind
    ensures UniqueKinds(r) <==> UniqueKinds(a) && UniqueKinds(b)
  {
    var n := |a|;
    if UniqueKinds(r) {
      forall i, j | 0 <= i < j < n ensures a[i].kind != a[j].kind {
        assert r[i].kind != r[j].kind;
      }
      forall i, j | 0 <= i < j < |b| ensures b[i].kind != b[j].kind {
        assert r[n + i].kind != r[n + j].kind;
      }
    }
    if UniqueKinds(a) && UniqueKinds(b) {
      forall i, j | 0 <= i < j < |r| ensures r[i].kind != r[j].kind {
        assert n <= i ==> r[n + (i - n)].kind == b[i - n].kind;
        assert n <= j ==> r[n + (j - n)].kind == b[j - n].kind;
      }
    }
  }
}
