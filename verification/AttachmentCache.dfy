/** Decrypted files by key: one download each, shared by everyone who opens the file. */
module AttachmentCache {
  import opened Runs

  // ----- the key -----

  function OpenCacheKey(digest: string, secret: string): string {
    digest + ":" + secret
  }

  predicate IsHex(digest: string) {
    forall c :: c in digest ==> '0' <= c <= '9' || 'a' <= c <= 'f' || 'A' <= c <= 'F'
  }

  /** Two digests under which different files can share a key: one, with the colon, starts the other. */
  predicate CanCollide(d: string, d': string) {
    d != d' && (d + ":" <= d' || d' + ":" <= d)
  }

  lemma CollisionMeansPrefix(d: string, s: string, d': string, s': string)
    requires OpenCacheKey(d, s) == OpenCacheKey(d', s') && |d| < |d'|
    ensures d + ":" <= d'
  {
    var k := OpenCacheKey(d, s);
    assert k[..|d| + 1] == d + ":" && k[..|d'|] == d';
    assert d'[..|d| + 1] == k[..|d| + 1];
  }

  lemma SameLengthSameFile(d: string, s: string, d': string, s': string)
    requires OpenCacheKey(d, s) == OpenCacheKey(d', s') && |d| == |d'|
    ensures d == d' && s == s'
  {
    var k := OpenCacheKey(d, s);
    assert k[..|d|] == d && k[..|d'|] == d' && k[|d| + 1..] == s && k[|d'| + 1..] == s';
  }

  /** Different files share a key only under such digests. */
  lemma CollisionsNeedThem(d: string, s: string, d': string, s': string)
    requires OpenCacheKey(d, s) == OpenCacheKey(d', s') && !(d == d' && s == s')
    ensures CanCollide(d, d')
  {
    if |d| == |d'| { SameLengthSameFile(d, s, d', s'); }
    else if |d| < |d'| { CollisionMeansPrefix(d, s, d', s'); }
    else { CollisionMeansPrefix(d', s', d, s); }
  }

  /** And under such digests there are such files. */
  lemma PrefixCollides(d: string, d': string) returns (s: string, s': string)
    requires d + ":" <= d'
    ensures OpenCacheKey(d, s) == OpenCacheKey(d', s')
  {
    s, s' := d'[|d| + 1..] + ":", "";
    assert d' == d + ":" + d'[|d| + 1..];
  }

  /** Exactly when two digests let different files share a key. */
  lemma CollidesIff(d: string, d': string)
    ensures (exists s, s' :: OpenCacheKey(d, s) == OpenCacheKey(d', s') && !(d == d' && s == s')) <==> CanCollide(d, d')
  {
    if s, s' :| OpenCacheKey(d, s) == OpenCacheKey(d', s') && !(d == d' && s == s') {
      CollisionsNeedThem(d, s, d', s');
    }
    if CanCollide(d, d') {
      if d + ":" <= d' {
        var s, s' := PrefixCollides(d, d');
      } else {
        var s', s := PrefixCollides(d', d);
      }
    }
  }

  /** Two such files. */
  lemma ColonsCollide()
    ensures CanCollide("a:b", "a") && OpenCacheKey("a:b", "c") == OpenCacheKey("a", "b:c")
  {
  }

  /** With hex digests, which hold no colon, no two files share a key; the secret may be anything. */
  lemma KeyIsInjective(d: string, s: string, d': string, s': string)
    requires IsHex(d) && IsHex(d')
    ensures OpenCacheKey(d, s) == OpenCacheKey(d', s') <==> d == d' && s == s'
  {
    HexStartsNoOther(d, d');
    HexStartsNoOther(d', d);
    if OpenCacheKey(d, s) == OpenCacheKey(d', s') && !(d == d' && s == s') {
      CollisionsNeedThem(d, s, d', s');
    }
  }

  lemma HexStartsNoOther(d: string, d': string)
    requires IsHex(d')
    ensures !(d + ":" <= d')
  {
    if |d| < |d'| { assert d'[|d|] in d'; }
  }

  // ----- the cache -----

  datatype Progress = Pending | Resolved | Rejected

  /** A promise of a decrypted file: a download, or a sender's own file put there already resolved. */
  datatype Promise = Promise(key: string, download: bool, progress: Progress)

  /** The cached promise of each key, and every promise ever made, by number. */
  datatype Cache = Cache(cached: map<string, nat>, promises: seq<Promise>)

  datatype Event =
    | Open(key: string)
    | Resolve(p: nat)
    | Reject(p: nat)
    | Evict(p: nat)
    | Prime(key: string)
    | Clear

  predicate Enabled(c: Cache, e: Event) {
    match e
    case Resolve(p) => p < |c.promises| && c.promises[p].progress == Pending
    case Reject(p) => p < |c.promises| && c.promises[p].progress == Pending
    case Evict(p) => p < |c.promises| && c.promises[p].progress == Rejected
    case _ => true
  }

  predicate StartsDownload(c: Cache, e: Event) {
    e.Open? && e.key !in c.cached
  }

  function Apply(c: Cache, e: Event): Cache
    requires Enabled(c, e)
  {
    match e
    case Open(k) =>
      if k in c.cached then c else Cache(c.cached[k := |c.promises|], c.promises + [Promise(k, true, Pending)])
    case Resolve(p) => c.(promises := c.promises[p := c.promises[p].(progress := Resolved)])
    case Reject(p) => c.(promises := c.promises[p := c.promises[p].(progress := Rejected)])
    case Evict(p) =>
      var k := c.promises[p].key;
      if k in c.cached && c.cached[k] == p then c.(cached := c.cached - {k}) else c
    case Prime(k) => Cache(c.cached[k := |c.promises|], c.promises + [Promise(k, false, Resolved)])
    case Clear => c.(cached := map[])
  }

  ghost predicate StepTo(c: Cache, e: Event, c': Cache) {
    Enabled(c, e) && c' == Apply(c, e)
  }

  const EMPTY := Cache(map[], [])

  /** Every cached promise exists and is a promise of its key; only downloads fail. */
  ghost predicate Inv(c: Cache) {
    && (forall k :: k in c.cached ==> c.cached[k] < |c.promises| && c.promises[c.cached[k]].key == k)
    && (forall p :: 0 <= p < |c.promises| && !c.promises[p].download ==> c.promises[p].progress == Resolved)
  }

  lemma InvStep(c: Cache, e: Event, c': Cache)
    requires Inv(c) && StepTo(c, e, c')
    ensures Inv(c')
  {
  }

  /** A late failure evicts its own entry or nothing: whatever is newer, or is another file's, stays. */
  lemma LateFailureIsOwn(c: Cache, p: nat, k: string)
    requires Inv(c) && Enabled(c, Evict(p))
    ensures var c' := Apply(c, Evict(p));
      && (k in c'.cached <==> k in c.cached && c.cached[k] != p)
      && (k in c'.cached ==> c'.cached[k] == c.cached[k])
  {
  }

  /** What each event leaves under a key: an open a promise of it, a new download if there was none; an upload the
      sender's own file, at hand; clearing nothing. */
  lemma EntryMeaning(c: Cache, k: string, other: string)
    requires Inv(c)
    ensures var t := Apply(c, Open(k));
      && k in t.cached && t.promises == c.promises + (if k in c.cached then [] else [Promise(k, true, Pending)])
      && t.cached[k] == (if k in c.cached then c.cached[k] else |c.promises|)
      && (other != k ==> (other in t.cached <==> other in c.cached) && (other in c.cached ==> t.cached[other] == c.cached[other]))
    ensures var t := Apply(c, Prime(k));
      && k in t.cached && t.cached[k] == |c.promises| && t.promises == c.promises + [Promise(k, false, Resolved)]
      && (other != k ==> (other in t.cached <==> other in c.cached) && (other in c.cached ==> t.cached[other] == c.cached[other]))
    ensures other !in Apply(c, Clear).cached && Apply(c, Clear).promises == c.promises
  {
  }

  // ----- one download -----

  /** The key's entry is download `p`, not failed, or something a sender put there since. */
  ghost predicate Serves(c: Cache, k: string, p: nat) {
    && k in c.cached && p < |c.promises|
    && c.promises[p].progress != Rejected
    && c.cached[k] < |c.promises|
    && (c.cached[k] == p || !c.promises[c.cached[k]].download)
  }

  lemma ServesStep(c: Cache, e: Event, c': Cache, k: string, p: nat)
    requires Inv(c) && StepTo(c, e, c') && Serves(c, k, p) && e != Clear && e != Reject(p)
    ensures Serves(c', k, p)
  {
  }

  lemma {:induction false} ServesRun(c: Cache, es: seq<Event>, c': Cache, k: string, p: nat)
    requires Inv(c) && Run(StepTo, c, es, c') && Serves(c, k, p) && Clear !in es && Reject(p) !in es
    ensures Serves(c', k, p)
    decreases |es|
  {
    if es != [] {
      var step := StepTo;
      var mid :| step(c, es[0], mid) && Run(step, mid, es[1..], c');
      assert step(c, es[0], mid) == StepTo(c, es[0], mid);
      assert es[0] in es && forall e :: e in es[1..] ==> e in es;
      InvStep(c, es[0], mid);
      ServesStep(c, es[0], mid, k, p);
      ServesRun(mid, es[1..], c', k, p);
    }
  }

  /** In any run, between two downloads of one key the first one failed or the cache was cleared. */
  lemma OneDownloadPerFile(before: seq<Event>, c: Cache, k: string, es: seq<Event>, c': Cache)
    requires Run(StepTo, EMPTY, before, c) && StartsDownload(c, Open(k))
    requires Run(StepTo, Apply(c, Open(k)), es, c') && StartsDownload(c', Open(k))
    ensures Clear in es || Reject(|c.promises|) in es
  {
    var step := StepTo;
    forall a: Cache, e: Event, b: Cache | Inv(a) && step(a, e, b) ensures Inv(b) {
      assert step(a, e, b) == StepTo(a, e, b);
      InvStep(a, e, b);
    }
    RunInduction(step, (s: Cache) => Inv(s), EMPTY, before, c);
    InvStep(c, Open(k), Apply(c, Open(k)));
    if Clear !in es && Reject(|c.promises|) !in es {
      ServesRun(Apply(c, Open(k)), es, c', k, |c.promises|);
    }
  }

  /** Opening while the file is served gives the same promise to everyone and changes nothing. */
  lemma OpensShare(c: Cache, k: string)
    requires Inv(c)
    ensures var c' := Apply(c, Open(k)); Apply(c', Open(k)) == c' && c'.promises[c'.cached[k]].key == k
  {
    InvStep(c, Open(k), Apply(c, Open(k)));
  }

  // ----- the module -----

  class OpenedFiles {
    var cached: map<string, nat>
    var promises: seq<Promise>

    constructor ()
      ensures State() == EMPTY
    {
      cached, promises := map[], [];
    }

    function State(): Cache
      reads this
    {
      Cache(cached, promises)
    }

    /** The cached promise, or a new download's. */
    method OpenAttachment(key: string) returns (pending: nat)
      requires Inv(State())
      modifies this
      ensures State() == Apply(old(State()), Open(key)) && Inv(State())
      ensures key in cached && cached[key] == pending
      ensures promises == old(promises) + if key in old(cached) then [] else [Promise(key, true, Pending)]
    {
      InvStep(State(), Open(key), Apply(State(), Open(key)));
      if key in cached { return cached[key]; }
      pending := |promises|;
      promises := promises + [Promise(key, true, Pending)];
      cached := cached[key := pending];
    }

    /** A download comes to its end. */
    method Settle(p: nat, ok: bool)
      requires Inv(State()) && p < |promises| && promises[p].progress == Pending
      modifies `promises
      ensures State() == Apply(old(State()), if ok then Resolve(p) else Reject(p)) && Inv(State())
    {
      InvStep(State(), Resolve(p), Apply(State(), Resolve(p)));
      InvStep(State(), Reject(p), Apply(State(), Reject(p)));
      promises := promises[p := promises[p].(progress := if ok then Resolved else Rejected)];
    }

    /** The download's own failure handler. */
    method OnRejected(p: nat)
      requires Inv(State()) && p < |promises| && promises[p].progress == Rejected
      modifies `cached
      ensures State() == Apply(old(State()), Evict(p)) && Inv(State())
    {
      var key := promises[p].key;
      InvStep(State(), Evict(p), Apply(State(), Evict(p)));
      if key in cached && cached[key] == p {
        cached := cached - {key};
      }
    }

    /** After an upload the sender's own file serves its key, whatever was there. */
    method PrimeUploaded(key: string)
      requires Inv(State())
      modifies this
      ensures State() == Apply(old(State()), Prime(key)) && Inv(State())
    {
      InvStep(State(), Prime(key), Apply(State(), Prime(key)));
      cached := cached[key := |promises|];
      promises := promises + [Promise(key, false, Resolved)];
    }

    method ClearAttachmentCache()
      requires Inv(State())
      modifies `cached
      ensures State() == Apply(old(State()), Clear) && Inv(State())
    {
      InvStep(State(), Clear, Apply(State(), Clear));
      cached := map[];
    }
  }
}
