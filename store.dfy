/**
 * The front end's workflow store: the list of farmers registered in this
 * browser session, the farmer currently being onboarded, and the nonce used
 * to make scheme ids. Each updater is a pure function on a `StoreState`; the
 * `WorkflowStore` class holds the three fields and replaces them as the
 * store's `set` does.
 */
module Store {
  import opened Wrappers
  import opened Seqs

  /** One farmer as the front end keeps it. Coordinates are kept as exact reals. */
  datatype FarmerData = FarmerData(
    wallet: string,
    recipientAddress: string,
    landProofHash: string,
    district: string,
    village: string,
    latitude: real,
    longitude: real,
    cropType: int,
    registered: bool,
    registrationTxHash: Option<string>)

  /** A `Partial<FarmerData>`: `Some(v)` for each key present in the update object. */
  datatype FarmerUpdate = FarmerUpdate(
    wallet: Option<string>,
    recipientAddress: Option<string>,
    landProofHash: Option<string>,
    district: Option<string>,
    village: Option<string>,
    latitude: Option<real>,
    longitude: Option<real>,
    cropType: Option<int>,
    registered: Option<bool>,
    registrationTxHash: Option<string>)

  /** Some key of the update carries a value different from the farmer's. */
  predicate HasChanges(f: FarmerData, u: FarmerUpdate) {
    (u.wallet.Some? && u.wallet.value != f.wallet)
    || (u.recipientAddress.Some? && u.recipientAddress.value != f.recipientAddress)
    || (u.landProofHash.Some? && u.landProofHash.value != f.landProofHash)
    || (u.district.Some? && u.district.value != f.district)
    || (u.village.Some? && u.village.value != f.village)
    || (u.latitude.Some? && u.latitude.value != f.latitude)
    || (u.longitude.Some? && u.longitude.value != f.longitude)
    || (u.cropType.Some? && u.cropType.value != f.cropType)
    || (u.registered.Some? && u.registered.value != f.registered)
    || (u.registrationTxHash.Some? && Some(u.registrationTxHash.value) != f.registrationTxHash)
  }

  /**
   * `{ ...farmer, ...updates }`: every key of the update overrides the farmer's value.
   * The merge leaves the farmer as it is exactly when the update changes nothing.
   */
  function Merge(f: FarmerData, u: FarmerUpdate): (r: FarmerData)
    ensures r == f <==> !HasChanges(f, u)
  {
    FarmerData(
      u.wallet.GetOr(f.wallet),
      u.recipientAddress.GetOr(f.recipientAddress),
      u.landProofHash.GetOr(f.landProofHash),
      u.district.GetOr(f.district),
      u.village.GetOr(f.village),
      u.latitude.GetOr(f.latitude),
      u.longitude.GetOr(f.longitude),
      u.cropType.GetOr(f.cropType),
      u.registered.GetOr(f.registered),
      if u.registrationTxHash.Some? then u.registrationTxHash else f.registrationTxHash)
  }

  /** After a merge the farmer carries every value of the update, so merging the same update again changes nothing. */
  lemma MergeSettles(f: FarmerData, u: FarmerUpdate)
    ensures !HasChanges(Merge(f, u), u)
    ensures Merge(Merge(f, u), u) == Merge(f, u)
  {
  }

  /** The update the workflow makes once the registration transaction is mined. */
  function RegistrationUpdate(txHash: string): (u: FarmerUpdate)
    ensures u.registered == Some(true) && u.registrationTxHash == Some(txHash)
    ensures u.wallet.None? && u.recipientAddress.None? && u.landProofHash.None?
    ensures u.district.None? && u.village.None? && u.latitude.None?
    ensures u.longitude.None? && u.cropType.None?
  {
    FarmerUpdate(None, None, None, None, None, None, None, None, Some(true), Some(txHash))
  }

  /** Marking a farmer registered keeps its wallet and every registration field. */
  lemma RegistrationKeepsIdentity(f: FarmerData, txHash: string)
    ensures Merge(f, RegistrationUpdate(txHash)).wallet == f.wallet
    ensures Merge(f, RegistrationUpdate(txHash)).registered
    ensures Merge(f, RegistrationUpdate(txHash)).registrationTxHash == Some(txHash)
    ensures Merge(f, RegistrationUpdate(txHash)) == f <==> f.registered && f.registrationTxHash == Some(txHash)
  {
  }

  datatype StoreState = StoreState(farmers: seq<FarmerData>, currentFarmer: Option<FarmerData>, schemeNonce: nat)

  /** The store as created, and as `reset` leaves it. */
  const EmptyStore: StoreState := StoreState([], None, 0)

  /** `addFarmer`: the farmer goes to the end of the list and becomes the current farmer. */
  function WithFarmerAdded(s: StoreState, f: FarmerData): (r: StoreState)
    ensures |r.farmers| == |s.farmers| + 1 && r.farmers[|s.farmers|] == f
    ensures r.farmers[..|s.farmers|] == s.farmers
    ensures r.currentFarmer == Some(f) && r.schemeNonce == s.schemeNonce
  {
    StoreState(s.farmers + [f], Some(f), s.schemeNonce)
  }

  /** The list `farmers` with every entry whose wallet is `updated.wallet` replaced by `updated`. */
  function ReplaceByWallet(farmers: seq<FarmerData>, updated: FarmerData): (r: seq<FarmerData>)
    ensures |r| == |farmers|
    ensures forall i :: 0 <= i < |r| && farmers[i].wallet == updated.wallet ==> r[i] == updated
    ensures forall i :: 0 <= i < |r| && farmers[i].wallet != updated.wallet ==> r[i] == farmers[i]
  {
    if farmers == [] then []
    else
      var head := if farmers[0].wallet == updated.wallet then updated else farmers[0];
      [head] + ReplaceByWallet(farmers[1..], updated)
  }

  function Wallets(farmers: seq<FarmerData>): (r: seq<string>)
    ensures |r| == |farmers| && forall i :: 0 <= i < |r| ==> r[i] == farmers[i].wallet
  {
    seq(|farmers|, i requires 0 <= i < |farmers| => farmers[i].wallet)
  }

  /** Replacing entries by wallet keeps the wallet column, hence the length and the order of the list. */
  lemma ReplaceKeepsWallets(farmers: seq<FarmerData>, updated: FarmerData)
    ensures Wallets(ReplaceByWallet(farmers, updated)) == Wallets(farmers)
  {
  }

  /** Replacing twice with the same farmer is replacing once. */
  lemma {:induction false} ReplaceIdempotent(farmers: seq<FarmerData>, updated: FarmerData)
    ensures ReplaceByWallet(ReplaceByWallet(farmers, updated), updated) == ReplaceByWallet(farmers, updated)
  {
    if farmers != [] {
      ReplaceIdempotent(farmers[1..], updated);
      assert ReplaceByWallet(farmers, updated)[1..] == ReplaceByWallet(farmers[1..], updated);
    }
  }

  /**
   * `updateFarmer`: without a current farmer, or when no key of the update
   * differs from it, the state is returned as it is; otherwise the merged
   * farmer becomes current and replaces every list entry with its wallet.
   */
  function WithFarmerUpdated(s: StoreState, u: FarmerUpdate): (r: StoreState)
    ensures s.currentFarmer.None? ==> r == s
    ensures s.currentFarmer.Some? && !HasChanges(s.currentFarmer.value, u) ==> r == s
    ensures r.schemeNonce == s.schemeNonce && Wallets(r.farmers) == Wallets(s.farmers)
    ensures s.currentFarmer.Some? && HasChanges(s.currentFarmer.value, u) ==>
      var m := Merge(s.currentFarmer.value, u);
      r.currentFarmer == Some(m) && r != s
      && (forall i :: 0 <= i < |r.farmers| ==>
            r.farmers[i] == if s.farmers[i].wallet == m.wallet then m else s.farmers[i])
  {
    match s.currentFarmer
    case None => s
    case Some(cur) =>
      if !HasChanges(cur, u) then s
      else
        var m := Merge(cur, u);
        ReplaceKeepsWallets(s.farmers, m);
        StoreState(ReplaceByWallet(s.farmers, m), Some(m), s.schemeNonce)
  }

  /** Applying the same update twice is applying it once. */
  lemma UpdateIdempotent(s: StoreState, u: FarmerUpdate)
    ensures WithFarmerUpdated(WithFarmerUpdated(s, u), u) == WithFarmerUpdated(s, u)
  {
    if s.currentFarmer.Some? && HasChanges(s.currentFarmer.value, u) {
      MergeSettles(s.currentFarmer.value, u);
    }
  }

  /** After adding a farmer, updating it replaces its new list entry and every other entry with its wallet. */
  lemma UpdateAfterAdd(s: StoreState, f: FarmerData, u: FarmerUpdate)
    requires HasChanges(f, u) && u.wallet.None?
    ensures var r := WithFarmerUpdated(WithFarmerAdded(s, f), u);
      r.farmers[|s.farmers|] == Merge(f, u) && r.currentFarmer == Some(Merge(f, u))
      && |r.farmers| == |s.farmers| + 1
  {
    var a := WithFarmerAdded(s, f);
    assert a.farmers[|s.farmers|].wallet == Merge(f, u).wallet;
  }

  /** `setCurrentFarmer`: only the current farmer changes. */
  function WithCurrentFarmer(s: StoreState, f: Option<FarmerData>): (r: StoreState)
    ensures r.farmers == s.farmers && r.schemeNonce == s.schemeNonce && r.currentFarmer == f
  {
    s.(currentFarmer := f)
  }

  /** `incrementSchemeNonce`: the new state and the value returned, the old nonce plus one. */
  function WithNonceIncremented(s: StoreState): (r: (StoreState, nat))
    ensures r.1 == s.schemeNonce + 1 && r.0.schemeNonce == r.1
    ensures r.0.farmers == s.farmers && r.0.currentFarmer == s.currentFarmer
  {
    var n := s.schemeNonce + 1;
    (s.(schemeNonce := n), n)
  }

  /** Any store operations between two increments never lower the nonce, so the second increment returns more. */
  lemma NoncesIncrease(s: StoreState, f: FarmerData, u: FarmerUpdate, g: Option<FarmerData>)
    ensures var (s1, n1) := WithNonceIncremented(s);
      var s2 := WithCurrentFarmer(WithFarmerUpdated(WithFarmerAdded(s1, f), u), g);
      n1 < WithNonceIncremented(s2).1
  {
  }

  /** `k` increments from any state return the values old+1, ..., old+k, strictly increasing. */
  function Increments(s: StoreState, k: nat): (r: (StoreState, seq<nat>))
    ensures |r.1| == k && r.0.schemeNonce == s.schemeNonce + k
    ensures forall i :: 0 <= i < k ==> r.1[i] == s.schemeNonce + i + 1
    decreases k
  {
    if k == 0 then (s, [])
    else
      var (s1, n) := WithNonceIncremented(s);
      var (s2, ns) := Increments(s1, k - 1);
      (s2, [n] + ns)
  }

  lemma IncrementsStrictlyIncrease(s: StoreState, k: nat, i: nat, j: nat)
    requires i < j < k
    ensures Increments(s, k).1[i] < Increments(s, k).1[j]
  {
  }

  /** The store's fields, replaced by each updater as the state-setting call of the store does. */
  class WorkflowStore {
    var farmers: seq<FarmerData>
    var currentFarmer: Option<FarmerData>
    var schemeNonce: nat

    function State(): StoreState
      reads this
    {
      StoreState(farmers, currentFarmer, schemeNonce)
    }

    constructor ()
      ensures State() == EmptyStore
    {
      farmers := [];
      currentFarmer := None;
      schemeNonce := 0;
    }

    method AddFarmer(f: FarmerData)
      modifies this
      ensures State() == WithFarmerAdded(old(State()), f)
    {
      farmers := farmers + [f];
      currentFarmer := Some(f);
    }

    method UpdateFarmer(u: FarmerUpdate)
      modifies this
      ensures State() == WithFarmerUpdated(old(State()), u)
    {
      if currentFarmer.None? {
        return;
      }
      var cur := currentFarmer.value;
      if !HasChanges(cur, u) {
        return;
      }
      var updated := Merge(cur, u);
      currentFarmer := Some(updated);
      farmers := ReplaceByWallet(farmers, updated);
    }

    method SetCurrentFarmer(f: Option<FarmerData>)
      modifies this
      ensures State() == WithCurrentFarmer(old(State()), f)
    {
      currentFarmer := f;
    }

    method IncrementSchemeNonce() returns (n: nat)
      modifies this
      ensures (State(), n) == WithNonceIncremented(old(State()))
    {
      n := schemeNonce + 1;
      schemeNonce := n;
    }

    method Reset()
      modifies this
      ensures State() == EmptyStore
    {
      farmers := [];
      currentFarmer := None;
      schemeNonce := 0;
    }
  }
}
