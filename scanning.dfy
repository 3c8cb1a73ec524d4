/** The full-scan matcher `scan_for_matches` of matcher.py: the live version
    (role orientation and a count), that version as it is written (it names a
    notifier that does not exist), and the earlier, shadowed version (no
    orientation, owner-guarded notifications). */
module Scanning {
  import opened Models
  import opened Matching
  import opened Notifications

  /** The Python exceptions a scan can raise. */
  datatype PyError = NameError(name: string) | TypeError

  datatype Result<T> = Ok(value: T) | Err(error: PyError)

  /** The new record and a loaded target stand on opposite sides, as the
      flag `isNewRecordFarmer` says. */
  predicate RolesFit(newRecord: Record, target: Record, isNewRecordFarmer: bool)
  {
    if isNewRecordFarmer then newRecord.FarmerRecord? && target.BuyerRecord?
    else newRecord.BuyerRecord? && target.FarmerRecord?
  }

  /** What both handlers guarantee: a new farmer is scanned against buyers.json
      with the flag set, a new buyer against farmers.json with it clear. */
  predicate Oriented(newRecord: Record, targets: seq<Record>, isNewRecordFarmer: bool)
  {
    forall i :: 0 <= i < |targets| ==> RolesFit(newRecord, targets[i], isNewRecordFarmer)
  }

  /** check_match applied with the roles assigned by the flag. */
  function Accepts(newRecord: Record, target: Record, isNewRecordFarmer: bool): bool
    requires RolesFit(newRecord, target, isNewRecordFarmer)
  {
    if isNewRecordFarmer then CheckMatch(newRecord.farmer, target.buyer)
    else CheckMatch(target.farmer, newRecord.buyer)
  }

  /** Matching does not depend on which side arrives second: a new farmer
      matches a stored buyer exactly when that buyer, arriving new, would
      match the stored farmer. */
  lemma OrientationSymmetric(f: Farmer, b: Buyer)
    ensures Accepts(FarmerRecord(f), BuyerRecord(b), true) == Accepts(BuyerRecord(b), FarmerRecord(f), false)
    ensures Accepts(FarmerRecord(f), BuyerRecord(b), true) == CheckMatch(f, b)
  {
  }

  /** The handlers' orientation holds of every prefix of the loaded targets. */
  lemma OrientedPrefix(newRecord: Record, targets: seq<Record>, isNewRecordFarmer: bool, i: int)
    requires Oriented(newRecord, targets, isNewRecordFarmer)
    requires 0 <= i <= |targets|
    ensures Oriented(newRecord, targets[..i], isNewRecordFarmer)
  {
    forall k | 0 <= k < i ensures RolesFit(newRecord, targets[..i][k], isNewRecordFarmer) {
      assert targets[..i][k] == targets[k];
    }
  }

  /** The `matches` list a scan builds: the accepted targets, in load order. */
  function Matches(newRecord: Record, targets: seq<Record>, isNewRecordFarmer: bool): (r: seq<Record>)
    requires Oriented(newRecord, targets, isNewRecordFarmer)
    ensures |r| <= |targets|
    decreases |targets|
  {
    if targets == [] then []
    else
      var last := targets[|targets| - 1];
      OrientedPrefix(newRecord, targets, isNewRecordFarmer, |targets| - 1);
      Matches(newRecord, targets[..|targets| - 1], isNewRecordFarmer)
        + (if Accepts(newRecord, last, isNewRecordFarmer) then [last] else [])
  }

  /** `matches` holds exactly the loaded targets that check_match accepts. */
  lemma {:induction false} MatchesAreAcceptedTargets(newRecord: Record, targets: seq<Record>, isNewRecordFarmer: bool)
    requires Oriented(newRecord, targets, isNewRecordFarmer)
    ensures forall t :: t in Matches(newRecord, targets, isNewRecordFarmer) ==> t in targets
    ensures forall i :: 0 <= i < |targets| ==>
      (targets[i] in Matches(newRecord, targets, isNewRecordFarmer) <==> Accepts(newRecord, targets[i], isNewRecordFarmer))
    decreases |targets|
  {
    if targets != [] {
      var n := |targets| - 1;
      var prefix, last := targets[..n], targets[n];
      assert targets == prefix + [last];
      OrientedPrefix(newRecord, targets, isNewRecordFarmer, n);
      MatchesAreAcceptedTargets(newRecord, prefix, isNewRecordFarmer);
    }
  }

  /** The positions, in increasing order, of the targets that are accepted. */
  function AcceptedIndices(newRecord: Record, targets: seq<Record>, isNewRecordFarmer: bool): (idx: seq<int>)
    requires Oriented(newRecord, targets, isNewRecordFarmer)
    ensures forall k :: 0 <= k < |idx| ==> 0 <= idx[k] < |targets| && Accepts(newRecord, targets[idx[k]], isNewRecordFarmer)
    ensures forall k, l :: 0 <= k < l < |idx| ==> idx[k] < idx[l]
    decreases |targets|
  {
    if targets == [] then []
    else
      var n := |targets| - 1;
      var prefix := targets[..n];
      OrientedPrefix(newRecord, targets, isNewRecordFarmer, n);
      assert forall i :: 0 <= i < n ==> prefix[i] == targets[i];
      AcceptedIndices(newRecord, prefix, isNewRecordFarmer)
        + (if Accepts(newRecord, targets[n], isNewRecordFarmer) then [n] else [])
  }

  /** Every accepted position is among the accepted indices. */
  lemma {:induction false} AcceptedIndicesComplete(newRecord: Record, targets: seq<Record>, isNewRecordFarmer: bool, i: int)
    requires Oriented(newRecord, targets, isNewRecordFarmer)
    requires 0 <= i < |targets| && Accepts(newRecord, targets[i], isNewRecordFarmer)
    ensures i in AcceptedIndices(newRecord, targets, isNewRecordFarmer)
    decreases |targets|
  {
    var n := |targets| - 1;
    OrientedPrefix(newRecord, targets, isNewRecordFarmer, n);
    if i < n {
      assert targets[..n][i] == targets[i];
      AcceptedIndicesComplete(newRecord, targets[..n], isNewRecordFarmer, i);
    }
  }

  /** `picked` is `s` read at the positions `idx`, in that order. */
  ghost predicate PicksAt(picked: seq<Record>, s: seq<Record>, idx: seq<int>)
  {
    && |picked| == |idx|
    && forall k :: 0 <= k < |idx| ==> 0 <= idx[k] < |s| && picked[k] == s[idx[k]]
  }

  lemma PicksAtExtend(picked: seq<Record>, s: seq<Record>, idx: seq<int>, x: Record)
    requires PicksAt(picked, s, idx)
    ensures PicksAt(picked, s + [x], idx)
    ensures PicksAt(picked + [x], s + [x], idx + [|s|])
  {
  }

  /** `matches` is an order-preserving subsequence of the targets: its k-th
      element is the target at the k-th accepted position, one per accepted
      target, none skipped. */
  lemma {:induction false} MatchesFollowTargetOrder(newRecord: Record, targets: seq<Record>, isNewRecordFarmer: bool)
    requires Oriented(newRecord, targets, isNewRecordFarmer)
    ensures PicksAt(Matches(newRecord, targets, isNewRecordFarmer), targets, AcceptedIndices(newRecord, targets, isNewRecordFarmer))
    decreases |targets|
  {
    if targets != [] {
      var n := |targets| - 1;
      var prefix, last := targets[..n], targets[n];
      assert targets == prefix + [last];
      MatchesFollowTargetOrder(newRecord, prefix, isNewRecordFarmer);
      PicksAtExtend(Matches(newRecord, prefix, isNewRecordFarmer), prefix,
                    AcceptedIndices(newRecord, prefix, isNewRecordFarmer), last);
    }
  }

  /** Prefixes of a message naming the counterpart's contact. */
  const MatchFoundPrefix: string := "Match found with contact: "
  const NewMatchPrefix: string := "New match found! Contact: "

  /** The notifications one match produces in the notifying scan: one to the
      new record's owner, then one to the target's owner, each present only
      when that record carries an owner id. */
  function MatchNotices(newRecord: Record, target: Record, now: Timestamp): seq<Notification>
  {
    (match newRecord.OwnerId()
     case Some(u) => [Notification(u, MatchFoundPrefix + target.Contact(), false, now)]
     case None => [])
    + (match target.OwnerId()
       case Some(u) => [Notification(u, NewMatchPrefix + newRecord.Contact(), false, now)]
       case None => [])
  }

  function OwnerCount(r: Record): nat
  {
    if r.OwnerId().Some? then 1 else 0
  }

  /** Number of records in `rs` that carry an owner id. */
  function OwnedCount(rs: seq<Record>): nat
  {
    if rs == [] then 0 else OwnedCount(rs[..|rs| - 1]) + OwnerCount(rs[|rs| - 1])
  }

  /** One match fans out to 0, 1 or 2 notifications, one per party with an
      owner id. */
  lemma MatchNoticesCount(newRecord: Record, target: Record, now: Timestamp)
    ensures |MatchNotices(newRecord, target, now)| == OwnerCount(newRecord) + OwnerCount(target)
  {
  }

  /** Each notification of one match is unread and goes to one party's owner,
      naming the other party's contact. Both carry the one clock reading
      `now`: the model reads the clock once per scan, where the source reads
      it on each save. */
  lemma MatchNoticesFanOut(newRecord: Record, target: Record, now: Timestamp)
    ensures forall m :: m in MatchNotices(newRecord, target, now) ==>
      && !m.read && m.timestamp == now
      && ((Some(m.userId) == newRecord.OwnerId() && m.message == MatchFoundPrefix + target.Contact())
          || (Some(m.userId) == target.OwnerId() && m.message == NewMatchPrefix + newRecord.Contact()))
  {
  }

  /** All notifications a notifying scan appends, in order. */
  function ScanNotices(newRecord: Record, targets: seq<Record>, isNewRecordFarmer: bool, now: Timestamp): seq<Notification>
    requires Oriented(newRecord, targets, isNewRecordFarmer)
    decreases |targets|
  {
    if targets == [] then []
    else
      var last := targets[|targets| - 1];
      OrientedPrefix(newRecord, targets, isNewRecordFarmer, |targets| - 1);
      ScanNotices(newRecord, targets[..|targets| - 1], isNewRecordFarmer, now)
        + (if Accepts(newRecord, last, isNewRecordFarmer) then MatchNotices(newRecord, last, now) else [])
  }

  /** One more loaded target extends `matches` by that target alone, if accepted. */
  lemma MatchesStep(newRecord: Record, targets: seq<Record>, isNewRecordFarmer: bool, i: int)
    requires Oriented(newRecord, targets, isNewRecordFarmer)
    requires 0 <= i < |targets|
    ensures Matches(newRecord, targets[..i + 1], isNewRecordFarmer)
         == Matches(newRecord, targets[..i], isNewRecordFarmer)
            + (if Accepts(newRecord, targets[i], isNewRecordFarmer) then [targets[i]] else [])
  {
    assert targets[..i + 1][..i] == targets[..i];
  }

  /** One more loaded target extends the appended notifications by that
      target's fan-out alone, if accepted. */
  lemma ScanNoticesStep(newRecord: Record, targets: seq<Record>, isNewRecordFarmer: bool, now: Timestamp, i: int)
    requires Oriented(newRecord, targets, isNewRecordFarmer)
    requires 0 <= i < |targets|
    ensures ScanNotices(newRecord, targets[..i + 1], isNewRecordFarmer, now)
         == ScanNotices(newRecord, targets[..i], isNewRecordFarmer, now)
            + (if Accepts(newRecord, targets[i], isNewRecordFarmer) then MatchNotices(newRecord, targets[i], now) else [])
  {
    assert targets[..i + 1][..i] == targets[..i];
  }

  /** A scan appends one notification per match for the new record's owner
      (if it has one) plus one per matched target that has an owner. */
  lemma {:induction false} ScanNoticesCount(newRecord: Record, targets: seq<Record>, isNewRecordFarmer: bool, now: Timestamp)
    requires Oriented(newRecord, targets, isNewRecordFarmer)
    ensures |ScanNotices(newRecord, targets, isNewRecordFarmer, now)|
         == (if newRecord.OwnerId().Some? then |Matches(newRecord, targets, isNewRecordFarmer)| else 0)
            + OwnedCount(Matches(newRecord, targets, isNewRecordFarmer))
    ensures |ScanNotices(newRecord, targets, isNewRecordFarmer, now)| <= 2 * |Matches(newRecord, targets, isNewRecordFarmer)|
    decreases |targets|
  {
    if targets != [] {
      var n := |targets| - 1;
      var prefix, last := targets[..n], targets[n];
      OrientedPrefix(newRecord, targets, isNewRecordFarmer, n);
      ScanNoticesCount(newRecord, prefix, isNewRecordFarmer, now);
      var m := Matches(newRecord, prefix, isNewRecordFarmer);
      OwnedCountBound(m);
      if Accepts(newRecord, last, isNewRecordFarmer) {
        assert Matches(newRecord, targets, isNewRecordFarmer) == m + [last];
        assert ScanNotices(newRecord, targets, isNewRecordFarmer, now)
            == ScanNotices(newRecord, prefix, isNewRecordFarmer, now) + MatchNotices(newRecord, last, now);
        assert (m + [last])[..|m|] == m;
        MatchNoticesCount(newRecord, last, now);
      } else {
        assert Matches(newRecord, targets, isNewRecordFarmer) == m;
        assert ScanNotices(newRecord, targets, isNewRecordFarmer, now) == ScanNotices(newRecord, prefix, isNewRecordFarmer, now);
      }
    }
  }

  lemma {:induction false} OwnedCountBound(rs: seq<Record>)
    ensures OwnedCount(rs) <= |rs|
  {
    if rs != [] {
      OwnedCountBound(rs[..|rs| - 1]);
    }
  }

  /** Every notification a scan appends is unread, stamped with the scan's
      time, and addressed to the new record's owner or to the owner of a
      matched target. The common stamp is the model's clock abstraction:
      one reading `now` per scan, where the source reads it on each save. */
  lemma {:induction false} ScanNoticesAddressed(newRecord: Record, targets: seq<Record>, isNewRecordFarmer: bool, now: Timestamp)
    requires Oriented(newRecord, targets, isNewRecordFarmer)
    ensures forall m :: m in ScanNotices(newRecord, targets, isNewRecordFarmer, now) ==>
      && !m.read && m.timestamp == now
      && (Some(m.userId) == newRecord.OwnerId()
          || exists t :: t in Matches(newRecord, targets, isNewRecordFarmer) && t.OwnerId() == Some(m.userId))
    decreases |targets|
  {
    if targets != [] {
      var n := |targets| - 1;
      ScanNoticesAddressed(newRecord, targets[..n], isNewRecordFarmer, now);
      MatchNoticesFanOut(newRecord, targets[n], now);
    }
  }

  /** The per-match notification of the earlier scan: notify the new record's
      owner, then the target's owner, each only when an owner id is present. */
  method NotifyMatch(store: NotificationStore, newRecord: Record, target: Record, now: Timestamp)
    modifies store
    ensures store.notifications == old(store.notifications) + MatchNotices(newRecord, target, now)
  {
    if newRecord.OwnerId().Some? {
      store.SaveNotification(newRecord.OwnerId().value, MatchFoundPrefix + target.Contact(), now);
    }
    if target.OwnerId().Some? {
      store.SaveNotification(target.OwnerId().value, NewMatchPrefix + newRecord.Contact(), now);
    }
  }

  /** Appending in two steps is appending the joined tail. */
  lemma SeqAppendAssoc<T>(a: seq<T>, b: seq<T>, c: seq<T>)
    ensures a + b + c == a + (b + c)
  {
  }

  /** scan_for_matches, live version with the evidently intended notifier:
      orient the roles, test every loaded target once, notify per match, and
      return how many targets matched. Only the notification store changes. */
  method ScanForMatches(store: NotificationStore, newRecord: Record, targets: seq<Record>,
                        isNewRecordFarmer: bool, now: Timestamp) returns (count: nat)
    requires Oriented(newRecord, targets, isNewRecordFarmer)
    modifies store
    ensures count == |Matches(newRecord, targets, isNewRecordFarmer)|
    ensures store.notifications == old(store.notifications) + ScanNotices(newRecord, targets, isNewRecordFarmer, now)
  {
    var matches: seq<Record> := [];
    for i := 0 to |targets|
      invariant Oriented(newRecord, targets[..i], isNewRecordFarmer)
      invariant matches == Matches(newRecord, targets[..i], isNewRecordFarmer)
      invariant store.notifications == old(store.notifications) + ScanNotices(newRecord, targets[..i], isNewRecordFarmer, now)
    {
      var target := targets[i];
      var farmer := if isNewRecordFarmer then newRecord.farmer else target.farmer;
      var buyer := if isNewRecordFarmer then target.buyer else newRecord.buyer;
      OrientedPrefix(newRecord, targets, isNewRecordFarmer, i + 1);
      MatchesStep(newRecord, targets, isNewRecordFarmer, i);
      ScanNoticesStep(newRecord, targets, isNewRecordFarmer, now, i);
      if CheckMatch(farmer, buyer) {
        matches := matches + [target];
        NotifyMatch(store, newRecord, target, now);
        SeqAppendAssoc(old(store.notifications), ScanNotices(newRecord, targets[..i], isNewRecordFarmer, now),
                       MatchNotices(newRecord, target, now));
      }
    }
    assert targets[..|targets|] == targets;
    count := |matches|;
  }

  /** scan_for_matches exactly as the live version is written: the notifier it
      calls on a match is neither defined nor imported, so the first match
      raises NameError; only a scan without matches returns (zero). */
  method ScanForMatchesAsWritten(newRecord: Record, targets: seq<Record>, isNewRecordFarmer: bool)
    returns (r: Result<nat>)
    requires Oriented(newRecord, targets, isNewRecordFarmer)
    ensures Matches(newRecord, targets, isNewRecordFarmer) == [] ==> r == Ok(0)
    ensures Matches(newRecord, targets, isNewRecordFarmer) != [] ==> r == Err(NameError("send_notification"))
  {
    var matches: seq<Record> := [];
    for i := 0 to |targets|
      invariant Oriented(newRecord, targets[..i], isNewRecordFarmer)
      invariant matches == Matches(newRecord, targets[..i], isNewRecordFarmer) == []
    {
      var target := targets[i];
      var farmer := if isNewRecordFarmer then newRecord.farmer else target.farmer;
      var buyer := if isNewRecordFarmer then target.buyer else newRecord.buyer;
      OrientedPrefix(newRecord, targets, isNewRecordFarmer, i + 1);
      MatchesStep(newRecord, targets, isNewRecordFarmer, i);
      if CheckMatch(farmer, buyer) {
        matches := matches + [target];
        MatchesAreAcceptedTargets(newRecord, targets, isNewRecordFarmer);
        assert target in Matches(newRecord, targets, isNewRecordFarmer);
        return Err(NameError("send_notification"));
      }
    }
    assert targets[..|targets|] == targets;
    return Ok(|matches|);
  }

  /** A farmer offering ten Nelore bulls in SP, against a buyer of five head of
      any race in SP or MG aged 12 to 36. */
  const SampleFarmer: Farmer := Farmer("Nelore", 24, "Male (Bull)", 10, "SP", "farmer-contact", "f1", 0.0, Some("U1"))
  const SampleBuyer: Buyer := Buyer(["SP", "MG"], "Any", 12, 36, "Male", 5, "buyer-contact", "b1", 0.0, Some("U2"))

  /** The sample pair matches, so the live scan as written raises NameError on
      this submission, while the notifying scan returns one match and tells
      both owners, each about the other's contact. */
  lemma SampleSubmissionMatches()
    ensures Matches(FarmerRecord(SampleFarmer), [BuyerRecord(SampleBuyer)], true) == [BuyerRecord(SampleBuyer)]
    ensures ScanNotices(FarmerRecord(SampleFarmer), [BuyerRecord(SampleBuyer)], true, 0.0)
         == [Notification("U1", MatchFoundPrefix + "buyer-contact", false, 0.0),
             Notification("U2", NewMatchPrefix + "farmer-contact", false, 0.0)]
  {
    var f, b := FarmerRecord(SampleFarmer), BuyerRecord(SampleBuyer);
    SexIsSubstringTest();
    assert CheckMatch(SampleFarmer, SampleBuyer);
    assert [b][..0] == [];
    assert Matches(f, [b], true) == Matches(f, [], true) + [b];
    assert ScanNotices(f, [b], true, 0.0) == ScanNotices(f, [], true, 0.0) + MatchNotices(f, b, 0.0);
  }

  /** check_match called with `first` in the farmer role and `second` in the
      buyer role, whatever their kinds: a buyer in the farmer role makes the
      first rule test a list for membership in a string, a TypeError. */
  function CheckMatchUnoriented(first: Record, second: Record): Result<bool>
    requires first.FarmerRecord? <==> second.BuyerRecord?
  {
    if first.FarmerRecord? then Ok(CheckMatch(first.farmer, second.buyer))
    else Err(TypeError)
  }

  /** For one farmer/buyer pair, the earlier, unoriented call agrees with the
      live scan's verdict (in either arrival order) when the farmer is the
      new record, and raises TypeError when the buyer is, whatever the
      verdict. */
  lemma UnorientedCallByArrival(f: Farmer, b: Buyer)
    ensures CheckMatchUnoriented(FarmerRecord(f), BuyerRecord(b)) == Ok(Accepts(FarmerRecord(f), BuyerRecord(b), true))
    ensures CheckMatchUnoriented(FarmerRecord(f), BuyerRecord(b)) == Ok(Accepts(BuyerRecord(b), FarmerRecord(f), false))
    ensures CheckMatchUnoriented(BuyerRecord(b), FarmerRecord(f)) == Err(TypeError)
  {
  }

  /** So the earlier scan loses real matches: the sample buyer, arriving
      new, matches the stored sample farmer under the live scan, yet the
      earlier scan's call raises TypeError on it. */
  lemma UnorientedCallLosesMatch()
    ensures Accepts(BuyerRecord(SampleBuyer), FarmerRecord(SampleFarmer), false)
    ensures CheckMatchUnoriented(BuyerRecord(SampleBuyer), FarmerRecord(SampleFarmer)) == Err(TypeError)
  {
    SexIsSubstringTest();
  }

  /** The earlier scan_for_matches: no role orientation, owner-guarded
      notifications per match. A new farmer is scanned correctly; a new buyer
      fails with TypeError on the first target, before any notification. */
  method ScanForMatchesEarly(store: NotificationStore, newRecord: Record, targets: seq<Record>, now: Timestamp)
    returns (r: Result<nat>)
    requires Oriented(newRecord, targets, newRecord.FarmerRecord?)
    modifies store
    ensures newRecord.FarmerRecord? ==>
      && r == Ok(|Matches(newRecord, targets, true)|)
      && store.notifications == old(store.notifications) + ScanNotices(newRecord, targets, true, now)
    ensures newRecord.BuyerRecord? ==>
      && r == (if targets == [] then Ok(0) else Err(TypeError))
      && store.notifications == old(store.notifications)
  {
    var matches: seq<Record> := [];
    for i := 0 to |targets|
      invariant Oriented(newRecord, targets[..i], newRecord.FarmerRecord?)
      invariant newRecord.FarmerRecord? ==>
        && matches == Matches(newRecord, targets[..i], true)
        && store.notifications == old(store.notifications) + ScanNotices(newRecord, targets[..i], true, now)
      invariant newRecord.BuyerRecord? ==> i == 0 && matches == [] && store.notifications == old(store.notifications)
    {
      var target := targets[i];
      var matched := CheckMatchUnoriented(newRecord, target);
      if matched.Err? {
        return Err(matched.error);
      }
      assert Accepts(newRecord, target, true) == matched.value;
      OrientedPrefix(newRecord, targets, true, i + 1);
      MatchesStep(newRecord, targets, true, i);
      ScanNoticesStep(newRecord, targets, true, now, i);
      if matched.value {
        matches := matches + [target];
        NotifyMatch(store, newRecord, target, now);
        SeqAppendAssoc(old(store.notifications), ScanNotices(newRecord, targets[..i], true, now),
                       MatchNotices(newRecord, target, now));
      }
    }
    assert targets[..|targets|] == targets;
    return Ok(|matches|);
  }
}
