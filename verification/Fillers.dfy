/** The background filler (adapter/storage/stack/filler.go): a bounded, deduplicating, lossy
    inbox, a one-place doorbell and one worker. Each method is one atomic section of the
    source, so any sequence of calls is one interleaving of producers, worker and close. */
module Fillers {

  const FILL_MAX_BYTES := 8 * 1024 * 1024
  const FILL_MAX_JOBS := 512

  type Offer = nat

  datatype Key = Key(id: nat, layer: nat)

  datatype Job = Job(offer: Offer, size: nat)

  // What became of an offer. A deduplicated one names the queued offer standing for it.
  datatype Fate = Deduped(first: Offer) | Dropped | Queued | InFlight | Landed

  // Where the worker stands: between rings, past the doorbell, writing a batch, done writing.
  datatype Worker = Waiting | Woken | Writing(batch: set<Offer>) | Written | Gone

  // ---- Sizes ----

  ghost function Total(inbox: map<Key, Job>): nat {
    if inbox == map[] then 0
    else
      var k :| k in inbox;
      inbox[k].size + Total(inbox - {k})
  }

  lemma {:induction false} TotalWithout(inbox: map<Key, Job>, k: Key)
    requires k in inbox
    ensures Total(inbox) == inbox[k].size + Total(inbox - {k})
    decreases |inbox|
  {
    var j: Key :| j in inbox && Total(inbox) == inbox[j].size + Total(inbox - {j});
    if j != k {
      TotalWithout(inbox - {j}, k);
      TotalWithout(inbox - {k}, j);
      assert inbox - {j} - {k} == inbox - {k} - {j};
    }
  }

  lemma TotalWith(inbox: map<Key, Job>, k: Key, job: Job)
    requires k !in inbox
    ensures Total(inbox[k := job]) == Total(inbox) + job.size
    ensures |inbox[k := job]| == |inbox| + 1
  {
    TotalWithout(inbox[k := job], k);
    WithAndWithout(inbox, k, job);
  }

  lemma WithAndWithout(inbox: map<Key, Job>, k: Key, job: Job)
    requires k !in inbox
    ensures inbox[k := job] - {k} == inbox && |inbox[k := job]| == |inbox| + 1
  {
    assert inbox[k := job].Keys == inbox.Keys + {k};
  }

  // ---- What every interleaving keeps ----

  ghost predicate Within(inbox: map<Key, Job>, bytes: nat) {
    bytes == Total(inbox) && bytes <= FILL_MAX_BYTES && |inbox| <= FILL_MAX_JOBS
  }

  /** Each offer's fate is what the inbox and the worker say of it. */
  ghost predicate FatesOk(inbox: map<Key, Job>, worker: Worker, fate: map<Offer, Fate>, keyOf: map<Offer, Key>) {
    && fate.Keys == keyOf.Keys
    && (forall k {:trigger JobOk(inbox, keyOf, k)} :: k in inbox ==> JobOk(inbox, keyOf, k))
    && (worker.Writing? ==> worker.batch <= fate.Keys)
    && (forall o {:trigger FateOk(inbox, worker, fate, keyOf, o)} ::
          o in fate ==> FateOk(inbox, worker, fate, keyOf, o))
  }

  predicate JobOk(inbox: map<Key, Job>, keyOf: map<Offer, Key>, k: Key)
    requires k in inbox
  {
    inbox[k].offer in keyOf && keyOf[inbox[k].offer] == k
  }

  ghost predicate FateOk(
    inbox: map<Key, Job>, worker: Worker, fate: map<Offer, Fate>, keyOf: map<Offer, Key>, o: Offer)
    requires fate.Keys == keyOf.Keys && o in fate
  {
    && (fate[o].Queued? <==> keyOf[o] in inbox && inbox[keyOf[o]].offer == o)
    && (fate[o].InFlight? <==> worker.Writing? && o in worker.batch)
    && (fate[o].Deduped? ==> StandsFor(fate, keyOf, fate[o].first, o))
  }

  /** The first was admitted under the same key. */
  ghost predicate StandsFor(fate: map<Offer, Fate>, keyOf: map<Offer, Key>, first: Offer, o: Offer)
    requires fate.Keys == keyOf.Keys
  {
    first in fate && o in fate && keyOf[first] == keyOf[o] &&
      (fate[first].Queued? || fate[first].InFlight? || fate[first].Landed?)
  }

  class Filler {
    var inbox: map<Key, Job>
    var bytes: nat
    var dropped: nat
    var writing: bool
    var doorbell: bool
    var stopped: bool
    var worker: Worker
    ghost var ringing: nat
    ghost var fate: map<Offer, Fate>
    ghost var keyOf: map<Offer, Key>

    ghost predicate Valid()
      reads this
    {
      && Within(inbox, bytes) && FatesOk(inbox, worker, fate, keyOf)
      // Queued work is always announced: a ring pending, one on its way, or a worker about to take.
      && (|inbox| > 0 && !stopped ==> doorbell || ringing > 0 || worker.Woken?)
      && (worker.Writing? ==> writing) && (writing ==> worker.Writing? || worker.Written?)
      && (worker.Gone? ==> stopped)
    }

    constructor ()
      ensures Valid() && inbox == map[] && fate == map[] && !stopped
    {
      inbox, bytes, dropped := map[], 0, 0;
      writing, doorbell, stopped, worker := false, false, false, Waiting;
      ringing, fate, keyOf := 0, map[], map[];
    }

    /** The locked half of queue. The caller rings unless the offer was dropped. */
    method Queue(key: Key, size: nat, o: Offer)
      requires Valid() && o !in fate
      modifies this
      ensures Valid() && worker == old(worker) && stopped == old(stopped)
      ensures fate.Keys == old(fate).Keys + {o} && forall p :: p in old(fate) ==> fate[p] == old(fate)[p]
      ensures keyOf == old(keyOf)[o := key]
      ensures fate[o].Deduped? <==> key in old(inbox)
      ensures fate[o].Dropped? <==>
        (key !in old(inbox) && (|old(inbox)| >= FILL_MAX_JOBS || old(bytes) + size > FILL_MAX_BYTES))
      ensures fate[o].Queued? <==> !fate[o].Deduped? && !fate[o].Dropped?
      ensures dropped == old(dropped) + if fate[o].Dropped? then 1 else 0
    {
      if key in inbox {
        Decline(key, o, Deduped(inbox[key].offer), 1);
      } else if |inbox| >= FILL_MAX_JOBS || bytes + size > FILL_MAX_BYTES {
        Decline(key, o, Dropped, 0);
        dropped := dropped + 1;
      } else {
        Admit(key, size, o);
      }
    }

    ghost method Decline(key: Key, o: Offer, f: Fate, rings: nat)
      requires Valid() && o !in fate && (f == Dropped || (key in inbox && f == Deduped(inbox[key].offer)))
      modifies this`fate, this`keyOf, this`ringing
      ensures Valid() && fate == old(fate)[o := f] && keyOf == old(keyOf)[o := key]
    {
      DeclinedFates(inbox, worker, fate, keyOf, key, o, f);
      fate, keyOf, ringing := fate[o := f], keyOf[o := key], ringing + rings;
    }

    method Admit(key: Key, size: nat, o: Offer)
      requires Valid() && o !in fate && key !in inbox && |inbox| < FILL_MAX_JOBS && bytes + size <= FILL_MAX_BYTES
      modifies this`inbox, this`bytes, this`ringing, this`fate, this`keyOf
      ensures Valid() && fate == old(fate)[o := Queued] && keyOf == old(keyOf)[o := key]
    {
      AdmitFits(inbox, bytes, key, Job(o, size));
      AdmitFates(inbox, worker, fate, keyOf, key, Job(o, size));
      inbox, bytes := inbox[key := Job(o, size)], bytes + size;
      ringing, fate, keyOf := ringing + 1, fate[o := Queued], keyOf[o := key];
    }

    /** A producer past the lock rings, or finds the bell ringing. */
    method Ring()
      requires Valid() && ringing > 0
      modifies this`doorbell, this`ringing
      ensures Valid() && doorbell && ringing == old(ringing) - 1
    {
      doorbell := true;
      ringing := ringing - 1;
    }

    /** The worker hears the bell. */
    method Wake()
      requires Valid() && worker.Waiting? && doorbell
      modifies this`doorbell, this`worker
      ensures Valid() && worker.Woken? && !doorbell
    {
      SameFates(inbox, worker, Woken, fate, keyOf);
      doorbell, worker := false, Woken;
    }

    /** take: swap the inbox out, and mark the batch in flight. */
    method Take()
      requires Valid() && worker.Woken?
      modifies this
      ensures Valid() && inbox == map[] && stopped == old(stopped) && ringing == old(ringing)
      ensures keyOf == old(keyOf) && doorbell == old(doorbell)
      ensures worker == if old(inbox) == map[] then Written else Writing(Offers(old(inbox)))
      ensures fate == Moved(old(fate), Queued, InFlight)
    {
      if inbox == map[] {
        NothingTaken(fate, keyOf);
        worker := Written;
      } else {
        TakenFates(inbox, fate, keyOf);
        worker, fate := Writing(Offers(inbox)), Moved(fate, Queued, InFlight);
        inbox, bytes, writing := map[], 0, true;
      }
    }

    /** put has returned: the batch is written, its failures discarded. */
    method Put()
      requires Valid() && worker.Writing?
      modifies this`worker, this`fate
      ensures Valid() && worker.Written? && fate == Moved(old(fate), InFlight, Landed)
    {
      LandedFates(inbox, worker.batch, fate, keyOf);
      worker, fate := Written, Moved(fate, InFlight, Landed);
    }

    method Finish()
      requires Valid() && worker.Written?
      modifies this`worker, this`writing
      ensures Valid() && worker.Waiting? && !writing
    {
      SameFates(inbox, worker, Waiting, fate, keyOf);
      writing, worker := false, Waiting;
    }

    /** close: whatever is pending is abandoned. */
    method Close()
      requires Valid()
      modifies this`stopped
      ensures Valid() && stopped
    {
      stopped := true;
    }

    method Exit()
      requires Valid() && worker.Waiting? && stopped
      modifies this`worker
      ensures Valid() && worker.Gone?
    {
      SameFates(inbox, worker, Gone, fate, keyOf);
      worker := Gone;
    }

    /** idle. With the inbox empty and the worker not writing, every offer was written, was
        dropped, or has one of its key written for it. */
    method Idle() returns (r: bool)
      requires Valid()
      ensures r <==> inbox == map[] && !writing
      ensures r ==> forall o :: o in fate ==>
        fate[o].Landed? || fate[o].Dropped? ||
        (fate[o].Deduped? && fate[o].first in fate && fate[fate[o].first].Landed? && keyOf[fate[o].first] == keyOf[o])
    {
      r := |inbox| == 0 && !writing;
      if r {
        NothingPending(worker, fate, keyOf);
      }
    }

    /** The one step the worker or a ringing producer can take next, when work is left. */
    method Move()
      requires Valid() && !stopped && (inbox != map[] || writing)
      modifies this
      ensures Valid() && !stopped && keyOf == old(keyOf) && Onward(old(fate), fate)
      ensures Nearer(inbox, ringing, worker, old(inbox), old(ringing), old(worker))
    {
      match worker {
        case Waiting => if doorbell { Wake(); } else { Ring(); }
        case Woken => Take();
        case Writing(_) => Put();
        case Written => Finish();
      }
    }

    /** The worker never sleeps on work: with no more offers coming, the rings on their way and
        the worker's own steps write everything queued, whatever state they start from. */
    method Settle()
      requires Valid() && !stopped
      modifies this
      ensures Valid() && inbox == map[] && !writing
      ensures forall o :: o in old(fate) && (old(fate)[o].Queued? || old(fate)[o].InFlight?) ==>
        o in fate && fate[o].Landed?
    {
      while inbox != map[] || writing
        invariant Valid() && !stopped && Onward(old(fate), fate)
        decreases inbox != map[], ringing, Stage(worker)
      {
        Move();
      }
      AllLanded(old(fate), worker, fate, keyOf);
    }
  }

  /** The inbox empties, or a ring arrives, or the worker comes nearer its next take. */
  predicate Nearer(inbox: map<Key, Job>, ringing: nat, w: Worker, inbox0: map<Key, Job>, ringing0: nat, w0: Worker) {
    || (inbox == map[] && inbox0 != map[])
    || ((inbox == map[]) == (inbox0 == map[]) &&
        (ringing < ringing0 || (ringing == ringing0 && Stage(w) < Stage(w0))))
  }

  function Stage(w: Worker): nat {
    match w
    case Writing(_) => 4
    case Written => 3
    case Waiting => 2
    case Woken => 1
    case Gone => 0
  }

  /** Every offer at stage a moves on to stage b. */
  function Moved(fate: map<Offer, Fate>, a: Fate, b: Fate): map<Offer, Fate> {
    map o | o in fate :: if fate[o] == a then b else fate[o]
  }

  lemma NothingTaken(fate: map<Offer, Fate>, keyOf: map<Offer, Key>)
    requires FatesOk(map[], Woken, fate, keyOf)
    ensures FatesOk(map[], Written, fate, keyOf) && Moved(fate, Queued, InFlight) == fate
  {
    forall o | o in fate ensures !fate[o].Queued? {
      assert FateOk(map[], Woken, fate, keyOf, o);
    }
    SameFates(map[], Woken, Written, fate, keyOf);
  }

  /** A worker that is writing nothing leaves every fate as it was. */
  lemma SameFates(
    inbox: map<Key, Job>, worker: Worker, worker': Worker, fate: map<Offer, Fate>, keyOf: map<Offer, Key>)
    requires FatesOk(inbox, worker, fate, keyOf) && !worker.Writing? && !worker'.Writing?
    ensures FatesOk(inbox, worker', fate, keyOf)
  {
    forall k | k in inbox ensures JobOk(inbox, keyOf, k) {}
    forall o | o in fate ensures FateOk(inbox, worker', fate, keyOf, o) {
      assert FateOk(inbox, worker, fate, keyOf, o);
    }
  }

  lemma NothingPending(worker: Worker, fate: map<Offer, Fate>, keyOf: map<Offer, Key>)
    requires FatesOk(map[], worker, fate, keyOf) && !worker.Writing?
    ensures forall o :: o in fate ==>
      fate[o].Landed? || fate[o].Dropped? ||
      (fate[o].Deduped? && fate[o].first in fate && fate[fate[o].first].Landed? && keyOf[fate[o].first] == keyOf[o])
  {
    forall o | o in fate ensures !fate[o].Queued? && !fate[o].InFlight? {
      assert FateOk(map[], worker, fate, keyOf, o);
    }
    forall o | o in fate && fate[o].Deduped? ensures StandsFor(fate, keyOf, fate[o].first, o) {
      assert FateOk(map[], worker, fate, keyOf, o);
    }
  }

  lemma LandedFates(inbox: map<Key, Job>, batch: set<Offer>, fate: map<Offer, Fate>, keyOf: map<Offer, Key>)
    requires FatesOk(inbox, Writing(batch), fate, keyOf)
    ensures FatesOk(inbox, Written, Moved(fate, InFlight, Landed), keyOf)
  {
    var fate' := Moved(fate, InFlight, Landed);
    forall o | o in fate ensures FateOk(inbox, Written, fate', keyOf, o) {
      assert FateOk(inbox, Writing(batch), fate, keyOf, o);
    }
  }

  /** A new offer settles its own fate and no other's. */
  lemma NewFate(
    inbox: map<Key, Job>, inbox': map<Key, Job>, worker: Worker, fate: map<Offer, Fate>, keyOf: map<Offer, Key>,
    key: Key, o: Offer, f: Fate)
    requires FatesOk(inbox, worker, fate, keyOf) && o !in fate && !f.InFlight? && !f.Landed?
    requires f.Queued? ==> key !in inbox && inbox'.Keys == inbox.Keys + {key} && inbox'[key].offer == o
    requires f.Queued? ==> forall k :: k in inbox ==> inbox'[k] == inbox[k]
    requires !f.Queued? ==> inbox' == inbox
    requires f.Deduped? ==> key in inbox && f.first == inbox[key].offer
    ensures FatesOk(inbox', worker, fate[o := f], keyOf[o := key])
  {
    var fate', keyOf' := fate[o := f], keyOf[o := key];
    forall k | k in inbox' ensures JobOk(inbox', keyOf', k) {
      assert k in inbox ==> JobOk(inbox, keyOf, k);
    }
    assert key in inbox ==> JobOk(inbox, keyOf, key);
    forall p | p in fate' ensures FateOk(inbox', worker, fate', keyOf', p) {
      if p != o {
        assert FateOk(inbox, worker, fate, keyOf, p);
      } else if f.Deduped? {
        assert FateOk(inbox, worker, fate, keyOf, f.first);
      }
    }
  }

  lemma AdmitFits(inbox: map<Key, Job>, bytes: nat, key: Key, job: Job)
    requires Within(inbox, bytes) && key !in inbox && |inbox| < FILL_MAX_JOBS && bytes + job.size <= FILL_MAX_BYTES
    ensures Within(inbox[key := job], bytes + job.size)
  {
    TotalWith(inbox, key, job);
  }

  lemma DeclinedFates(
    inbox: map<Key, Job>, worker: Worker, fate: map<Offer, Fate>, keyOf: map<Offer, Key>, key: Key, o: Offer, f: Fate)
    requires FatesOk(inbox, worker, fate, keyOf) && o !in fate
    requires f == Dropped || (key in inbox && f == Deduped(inbox[key].offer))
    ensures FatesOk(inbox, worker, fate[o := f], keyOf[o := key])
  {
    NewFate(inbox, inbox, worker, fate, keyOf, key, o, f);
  }

  lemma AdmitFates(
    inbox: map<Key, Job>, worker: Worker, fate: map<Offer, Fate>, keyOf: map<Offer, Key>, key: Key, job: Job)
    requires FatesOk(inbox, worker, fate, keyOf) && job.offer !in fate && key !in inbox
    ensures FatesOk(inbox[key := job], worker, fate[job.offer := Queued], keyOf[job.offer := key])
  {
    NewFate(inbox, inbox[key := job], worker, fate, keyOf, key, job.offer, Queued);
  }

  function Offers(inbox: map<Key, Job>): set<Offer> {
    set k | k in inbox :: inbox[k].offer
  }

  lemma TakenFates(inbox: map<Key, Job>, fate: map<Offer, Fate>, keyOf: map<Offer, Key>)
    requires FatesOk(inbox, Woken, fate, keyOf)
    ensures FatesOk(map[], Writing(Offers(inbox)), Moved(fate, Queued, InFlight), keyOf)
  {
    var fate' := Moved(fate, Queued, InFlight);
    forall o | o in fate ensures fate'[o].InFlight? <==> o in Offers(inbox) {
      assert FateOk(inbox, Woken, fate, keyOf, o);
      if k :| k in inbox && inbox[k].offer == o {
        assert JobOk(inbox, keyOf, k);
      }
    }
    forall k | k in inbox ensures inbox[k].offer in fate {
      assert JobOk(inbox, keyOf, k);
    }
    forall o | o in fate ensures FateOk(map[], Writing(Offers(inbox)), fate', keyOf, o) {
      assert FateOk(inbox, Woken, fate, keyOf, o);
    }
  }

  /** Admitted offers only move on: queued, in flight, landed. */
  ghost predicate Onward(before: map<Offer, Fate>, after: map<Offer, Fate>) {
    before.Keys == after.Keys && forall o :: o in before ==>
      && (before[o].Queued? ==> after[o].Queued? || after[o].InFlight? || after[o].Landed?)
      && (before[o].InFlight? ==> after[o].InFlight? || after[o].Landed?)
      && (before[o].Landed? ==> after[o].Landed?)
  }

  lemma AllLanded(before: map<Offer, Fate>, worker: Worker, fate: map<Offer, Fate>, keyOf: map<Offer, Key>)
    requires FatesOk(map[], worker, fate, keyOf) && !worker.Writing? && Onward(before, fate)
    ensures forall o :: o in before && (before[o].Queued? || before[o].InFlight?) ==> o in fate && fate[o].Landed?
  {
    NothingPending(worker, fate, keyOf);
    forall o | o in before && (before[o].Queued? || before[o].InFlight?) ensures o in fate && fate[o].Landed? {
      assert o in fate.Keys;
      assert FateOk(map[], worker, fate, keyOf, o);
    }
  }
}
