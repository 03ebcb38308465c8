/**
 The per-client quota (src/index.ts lines 30-40). The decision is a pure
 function of the client address and the counter the store returned; the
 store write becomes a returned intent.
 */
module RateLimit {
  import opened Wrappers
  import opened Http
  import Decimal

  /** A stored count strictly above this is refused. */
  const Threshold: nat := 1000
  /** Seconds a written counter lives in the store. */
  const TtlSeconds: nat := 3600

  /** A `put(key, value, { expirationTtl })` the worker schedules in the background. */
  datatype Write = Write(key: string, value: string, expirationTtl: nat)

  datatype Decision = Deny | Admit(write: Option<Write>)

  /**
   The decision for a request from client address `ip` (the `cf-connecting-ip`
   header) when the store holds `stored` for that address.
   */
  function Decide(ip: Option<string>, stored: Option<nat>): (d: Decision)
    ensures !Truthy(ip) ==> d == Admit(None)
    ensures Truthy(ip) ==> (d.Deny? <==> stored.Some? && stored.value > Threshold)
    ensures d.Admit? && Truthy(ip) ==> d.write.Some?
    ensures d.Admit? && d.write.Some? ==>
      && Truthy(ip)
      && d.write.value.key == ip.value
      && d.write.value.expirationTtl == TtlSeconds
      && Decimal.Parse(d.write.value.value) == Some(stored.GetOr(0) + 1)
  {
    if !Truthy(ip) then Admit(None)
    else if stored.Some? && stored.value > Threshold then Deny
    else
      var count := stored.GetOr(0) + 1;
      Decimal.ParseShow(count);
      Admit(Some(Write(ip.value, Decimal.Show(count), TtlSeconds)))
  }

  // ---------------------------------------------------------------------------
  // A sequential model of the store: no expiry, no concurrent requests.

  /** The key/value namespace: client address to decimal count. */
  type Store = map<string, string>

  /** The counter the worker reads for `key`; a missing or non-numeric entry reads as absent. */
  function Read(store: Store, key: string): Option<nat> {
    if key in store then Decimal.Parse(store[key]) else None
  }

  /** The store once a scheduled write (if any) has completed. */
  function Persist(store: Store, w: Option<Write>): (s: Store)
    ensures w.None? ==> s == store
    ensures w.Some? ==> s.Keys == store.Keys + {w.value.key} && s[w.value.key] == w.value.value
    ensures w.Some? ==> forall k :: k in store && k != w.value.key ==> s[k] == store[k]
  {
    match w
    case Some(write) => store[write.key := write.value]
    case None => store
  }

  /** The write a decision schedules: none when the request is refused. */
  function Scheduled(d: Decision): Option<Write> {
    if d.Admit? then d.write else None
  }

  /** One request from `ip`: read, decide, write. */
  function Step(store: Store, ip: Option<string>): (res: (Decision, Store))
    ensures res.0 == Decide(ip, Read(store, ip.GetOr("")))
    ensures forall k :: k in store && (!Truthy(ip) || k != ip.value) ==> k in res.1 && res.1[k] == store[k]
    ensures Truthy(ip) && res.0.Admit? ==> Read(res.1, ip.value) == Some(Read(store, ip.value).GetOr(0) + 1)
    ensures res.0.Deny? ==> res.1 == store
    ensures !Truthy(ip) ==> res.1 == store
    ensures res.1.Keys <= store.Keys + (if Truthy(ip) then {ip.value} else {})
  {
    var d := Decide(ip, Read(store, ip.GetOr("")));
    (d, Persist(store, Scheduled(d)))
  }

  /** The decisions for `n` consecutive requests from `ip`, each seeing the previous one's write. */
  function Replay(store: Store, ip: Option<string>, n: nat): (ds: seq<Decision>)
    ensures |ds| == n
    decreases n
  {
    if n == 0 then []
    else
      var (d, next) := Step(store, ip);
      [d] + Replay(next, ip, n - 1)
  }

  /**
   The `k`-th of consecutive requests from one client is admitted exactly when
   the counter it started from plus `k` does not exceed the threshold.
   */
  lemma {:induction false} ReplayAdmitsWhileUnderThreshold(store: Store, ip: string, n: nat, k: nat)
    requires ip != ""
    requires k < n
    ensures Replay(store, Some(ip), n)[k].Admit? <==> Read(store, ip).GetOr(0) + k <= Threshold
    decreases n
  {
    var (d, next) := Step(store, Some(ip));
    if k > 0 {
      assert Replay(store, Some(ip), n)[k] == Replay(next, Some(ip), n - 1)[k - 1];
      ReplayAdmitsWhileUnderThreshold(next, ip, n - 1, k - 1);
    }
  }

  /**
   From a client with no counter, exactly 1001 consecutive requests are admitted
   before the first refusal, and every later request is refused too.
   */
  lemma FirstDenialIsRequest1002(store: Store, ip: string, n: nat)
    requires ip != "" && ip !in store
    requires n > Threshold + 1
    ensures forall k :: 0 <= k <= Threshold ==> Replay(store, Some(ip), n)[k].Admit?
    ensures forall k :: Threshold < k < n ==> Replay(store, Some(ip), n)[k].Deny?
  {
    forall k | 0 <= k < n
      ensures Replay(store, Some(ip), n)[k].Admit? <==> k <= Threshold
    {
      ReplayAdmitsWhileUnderThreshold(store, ip, n, k);
    }
  }

  /** Requests without a client address are never refused and never touch the store. */
  lemma {:induction false} NoAddressNeverLimited(store: Store, ip: Option<string>, n: nat)
    requires !Truthy(ip)
    ensures forall k :: 0 <= k < n ==> Replay(store, ip, n)[k] == Admit(None)
    decreases n
  {
    if n > 0 {
      NoAddressNeverLimited(store, ip, n - 1);
    }
  }
}
