/** What a run of the ingress announces and counts, told from its events alone. */
module IngressLog {
  import opened Common
  import opened Events
  import opened Ingress

  /** What a request comes to once it has won its claim with a body that parses. */
  datatype Note = Stored(o: Observation) | Orphaned(id: string)

  /** The bus key that announces it. */
  function KeyOf(n: Note): string { match n case Stored(o) => o.orderId case Orphaned(_) => "_orphan" }

  function Keys(notes: seq<Note>): (keys: seq<string>)
    ensures |keys| == |notes| && forall i :: 0 <= i < |notes| ==> keys[i] == KeyOf(notes[i])
  {
    seq(|notes|, i requires 0 <= i < |notes| => KeyOf(notes[i]))
  }

  /** The observations among the notes, in order. */
  function StoredOf(notes: seq<Note>): (obs: seq<Observation>)
    ensures |obs| <= |notes|
  {
    if notes == [] then []
    else (if notes[0].Stored? then [notes[0].o] else []) + StoredOf(notes[1..])
  }

  /** Which claims a delivery wins: one that is signed and named and finds no claim alive. */
  predicate Wins(s: State, d: Delivery, now: int) { Accepted(d) && Claimable(s.seen, d.eventId.value, now) }

  /** The note of a delivery that wins, when its body parses. */
  function NoteOf(s: State, d: Delivery, now: int): seq<Note> {
    if !Wins(s, d, now) || d.body.Unparseable? then []
    else if d.body.observation.orderId == "" then [Orphaned(d.eventId.value)]
    else [Stored(Stamp(d.body, d.eventId.value, now))]
  }

  /** All that is finished, in order: an orphan on arrival, the others when they complete. */
  ghost function Finished(s: State, events: seq<Event>): seq<Note>
    requires IsRun(s, events)
    decreases |events|
  {
    if events == [] then []
    else match events[0]
      case Arrive(d, now) => OrphanIn(NoteOf(s, d, now)) + Finished(Arrived(s, d, now), events[1..])
      case Complete(k) => [Stored(s.pending[k])] + Finished(Completed(s, k), events[1..])
  }

  /** All that was taken on, in order of arrival. */
  ghost function TakenOn(s: State, events: seq<Event>): seq<Note>
    requires IsRun(s, events)
    decreases |events|
  {
    if events == [] then []
    else match events[0]
      case Arrive(d, now) => NoteOf(s, d, now) + TakenOn(Arrived(s, d, now), events[1..])
      case Complete(k) => TakenOn(Completed(s, k), events[1..])
  }

  /** Rows with all of these appended in turn. */
  function AllAppended(rows: seq<Observation>, obs: seq<Observation>): seq<Observation>
    decreases |obs|
  {
    if obs == [] then rows else AllAppended(Appended(rows, obs[0]), obs[1..])
  }

  function Deliveries(events: seq<Event>): nat {
    if events == [] then 0 else (if events[0].Arrive? then 1 else 0) + Deliveries(events[1..])
  }

  // ---------------------------------------------------------------------------- one event

  lemma KeysJoin(a: seq<Note>, b: seq<Note>)
    ensures Keys(a + b) == Keys(a) + Keys(b)
  {
  }

  function StoredIn(n: Note): seq<Observation> { if n.Stored? then [n.o] else [] }

  lemma StoredFirst(n: Note, rest: seq<Note>)
    ensures StoredOf([n] + rest) == StoredIn(n) + StoredOf(rest)
  {
    assert ([n] + rest)[1..] == rest;
  }

  lemma {:induction false} StoredJoin(a: seq<Note>, b: seq<Note>)
    ensures StoredOf(a + b) == StoredOf(a) + StoredOf(b)
  {
    if a == [] {
      assert a + b == b;
    } else {
      var n, rest := a[0], a[1..];
      assert a == [n] + rest && a + b == [n] + (rest + b);
      StoredJoin(rest, b);
      StoredFirst(n, rest);
      StoredFirst(n, rest + b);
    }
  }

  /** What an arrival does, by its note. */
  lemma ArrivalNoted(s: State, d: Delivery, now: int)
    ensures var note, t := NoteOf(s, d, now), Arrived(s, d, now);
            && t.rows == s.rows && t.received == s.received
            && (if note == [] then t.published == s.published && t.pending == s.pending
                                   && t.rejected + t.duplicates == s.rejected + s.duplicates + 1
                else t.rejected == s.rejected && t.duplicates == s.duplicates && |note| == 1
                     && if note[0].Orphaned? then t.published == s.published + ["_orphan"] && t.pending == s.pending
                        else t.published == s.published && t.pending == s.pending + [note[0].o])
  {
  }

  lemma CompletionNoted(s: State, k: nat)
    requires k < |s.pending|
    ensures var t := Completed(s, k);
            && t.rows == Appended(s.rows, s.pending[k]) && t.published == s.published + [s.pending[k].orderId]
            && t.received == s.received + 1 && t.rejected == s.rejected && t.duplicates == s.duplicates
            && multiset(s.pending) == multiset(t.pending) + multiset{s.pending[k]} && |t.pending| == |s.pending| - 1
  {
    assert s.pending == s.pending[..k] + [s.pending[k]] + s.pending[k + 1..];
  }

  // --------------------------------------------------------------------------- the run

  /** The state after these requests were finished and those taken on, of this many deliveries. */
  ghost predicate Follows(s: State, done: seq<Note>, taken: seq<Note>, deliveries: nat, t: State) {
    && t.published == s.published + Keys(done)
    && t.rows == AllAppended(s.rows, StoredOf(done))
    && t.received == s.received + |StoredOf(done)|
    && multiset(s.pending) + multiset(StoredOf(taken)) == multiset(t.pending) + multiset(StoredOf(done))
    && |taken| - |StoredOf(taken)| == |done| - |StoredOf(done)|
    && s.rejected + s.duplicates + deliveries == t.rejected + t.duplicates + |taken|
  }

  function OrphanIn(note: seq<Note>): seq<Note> { if note != [] && note[0].Orphaned? then note else [] }

  lemma OneNote(n: Note)
    ensures StoredOf([n]) == StoredIn(n) && Keys([n]) == [KeyOf(n)]
  {
    assert [n][1..] == [];
  }

  lemma ArrivalFollows(s: State, d: Delivery, now: int, done: seq<Note>, taken: seq<Note>, n: nat, t: State)
    requires Follows(Arrived(s, d, now), done, taken, n, t)
    ensures Follows(s, OrphanIn(NoteOf(s, d, now)) + done, NoteOf(s, d, now) + taken, n + 1, t)
  {
    var note := NoteOf(s, d, now);
    ArrivalNoted(s, d, now);
    NotedFollows(s, Arrived(s, d, now), note, done, taken, n, t);
  }

  lemma Bags(s: multiset<Observation>, x: multiset<Observation>, more: multiset<Observation>,
             taken: multiset<Observation>, t: multiset<Observation>, done: multiset<Observation>)
    requires x == s + more && x + taken == t + done
    ensures s + (more + taken) == t + done
  {
  }

  lemma BagOf(a: seq<Observation>, b: seq<Observation>)
    ensures multiset(a + b) == multiset(a) + multiset(b)
  {
  }

  /** The pending requests of a step that takes one on, or finishes one. */
  lemma PendingFollows(s: State, x: State, more: seq<Observation>, taken: seq<Note>, after: seq<Note>, t: State,
                       done: seq<Note>)
    requires multiset(x.pending) == multiset(s.pending) + multiset(more)
    requires StoredOf(after) == more + StoredOf(taken)
    requires multiset(x.pending) + multiset(StoredOf(taken)) == multiset(t.pending) + multiset(StoredOf(done))
    ensures multiset(s.pending) + multiset(StoredOf(after)) == multiset(t.pending) + multiset(StoredOf(done))
  {
    BagOf(more, StoredOf(taken));
    Bags(multiset(s.pending), multiset(x.pending), multiset(more), multiset(StoredOf(taken)), multiset(t.pending),
         multiset(StoredOf(done)));
  }

  lemma NotedFollows(s: State, x: State, note: seq<Note>, done: seq<Note>, taken: seq<Note>, n: nat, t: State)
    requires Follows(x, done, taken, n, t) && |note| <= 1 && x.rows == s.rows && x.received == s.received
    requires if note == [] then x.published == s.published && x.pending == s.pending
                                && x.rejected + x.duplicates == s.rejected + s.duplicates + 1
             else x.rejected == s.rejected && x.duplicates == s.duplicates
                  && if note[0].Orphaned? then x.published == s.published + ["_orphan"] && x.pending == s.pending
                     else x.published == s.published && x.pending == s.pending + [note[0].o]
    ensures Follows(s, OrphanIn(note) + done, note + taken, n + 1, t)
  {
    if note == [] {
      assert OrphanIn(note) + done == done && note + taken == taken;
    } else {
      var only := note[0];
      assert note == [only];
      StoredFirst(only, taken);
      StoredFirst(only, done);
      OneNote(only);
      if only.Orphaned? {
        KeysJoin([only], done);
        Associative(s.published, ["_orphan"], Keys(done));
        assert StoredIn(only) + StoredOf(done) == StoredOf(done) && StoredIn(only) + StoredOf(taken) == StoredOf(taken);
      } else {
        assert OrphanIn(note) + done == done;
        BagOf(s.pending, [only.o]);
        PendingFollows(s, x, [only.o], taken, note + taken, t, done);
      }
    }
  }

  lemma CompletionFollows(s: State, k: nat, done: seq<Note>, taken: seq<Note>, n: nat, t: State)
    requires k < |s.pending| && Follows(Completed(s, k), done, taken, n, t)
    ensures Follows(s, [Stored(s.pending[k])] + done, taken, n, t)
  {
    CompletionNoted(s, k);
    DoneFollows(s, Completed(s, k), s.pending[k], done, taken, n, t);
  }

  lemma BagsDone(s: multiset<Observation>, x: multiset<Observation>, one: multiset<Observation>,
                 taken: multiset<Observation>, t: multiset<Observation>, done: multiset<Observation>)
    requires s == x + one && x + taken == t + done
    ensures s + taken == t + (one + done)
  {
    assert (x + one) + taken == (x + taken) + one;
    assert (t + done) + one == t + (one + done);
  }

  lemma DoneFollows(s: State, x: State, o: Observation, done: seq<Note>, taken: seq<Note>, n: nat, t: State)
    requires Follows(x, done, taken, n, t)
    requires x.rows == Appended(s.rows, o) && x.published == s.published + [o.orderId]
    requires x.received == s.received + 1 && x.rejected == s.rejected && x.duplicates == s.duplicates
    requires multiset(s.pending) == multiset(x.pending) + multiset{o}
    ensures Follows(s, [Stored(o)] + done, taken, n, t)
  {
    StoredFirst(Stored(o), done);
    OneNote(Stored(o));
    KeysJoin([Stored(o)], done);
    Associative(s.published, [o.orderId], Keys(done));
    assert ([o] + StoredOf(done))[1..] == StoredOf(done);
    BagOf([o], StoredOf(done));
    BagsDone(multiset(s.pending), multiset(x.pending), multiset([o]), multiset(StoredOf(taken)), multiset(t.pending),
             multiset(StoredOf(done)));
  }

  lemma {:induction false} RunFollows(s: State, events: seq<Event>)
    requires IsRun(s, events)
    ensures Follows(s, Finished(s, events), TakenOn(s, events), Deliveries(events), After(s, events))
    decreases |events|
  {
    if events == [] {
      assert s.published + Keys([]) == s.published;
    } else {
      var rest := events[1..];
      match events[0]
      case Arrive(d, now) =>
        var x := Arrived(s, d, now);
        RunFollows(x, rest);
        ArrivalFollows(s, d, now, Finished(x, rest), TakenOn(x, rest), Deliveries(rest), After(x, rest));
      case Complete(k) =>
        var x := Completed(s, k);
        RunFollows(x, rest);
        CompletionFollows(s, k, Finished(x, rest), TakenOn(x, rest), Deliveries(rest), After(x, rest));
    }
  }

  lemma {:induction false} AppendedAmong(rows: seq<Observation>, obs: seq<Observation>, r: Observation)
    requires r in AllAppended(rows, obs)
    ensures r in rows || r in obs
    decreases |obs|
  {
    if obs != [] {
      AppendedAmong(Appended(rows, obs[0]), obs[1..], r);
    }
  }

  lemma {:induction false} StoredAreNoted(notes: seq<Note>, r: Observation)
    requires r in StoredOf(notes)
    ensures r.orderId in Keys(notes)
  {
    if notes[0] == Stored(r) {
      assert Keys(notes)[0] == r.orderId;
    } else {
      StoredAreNoted(notes[1..], r);
      KeysJoin([notes[0]], notes[1..]);
      assert notes == [notes[0]] + notes[1..];
    }
  }

  // ------------------------------------------------------------------------- theorems

  /** Over every run: exactly the finished requests are announced, in the order they finished, each under its
      order's id, or under `_orphan` when it names none; and the rows are those of the same requests. */
  lemma FinishedAreAnnounced(events: seq<Event>)
    requires IsRun(EMPTY, events)
    ensures var s, done := After(EMPTY, events), Finished(EMPTY, events);
            && s.published == Keys(done) && s.rows == AllAppended([], StoredOf(done)) && s.received == |StoredOf(done)|
            && forall r :: r in s.rows ==> r.orderId in s.published
  {
    RunFollows(EMPTY, events);
    var s, done := After(EMPTY, events), Finished(EMPTY, events);
    forall r | r in s.rows ensures r.orderId in s.published {
      AppendedAmong([], StoredOf(done), r);
      StoredAreNoted(done, r);
    }
  }

  /** And nothing is lost: what was taken on is finished or pending, and every delivery was taken on, rejected or
      found a duplicate. */
  lemma NothingIsLost(events: seq<Event>)
    requires IsRun(EMPTY, events)
    ensures var s, taken := After(EMPTY, events), TakenOn(EMPTY, events);
            var done := Finished(EMPTY, events);
            && multiset(StoredOf(taken)) == multiset(s.pending) + multiset(StoredOf(done))
            && |taken| - |StoredOf(taken)| == |done| - |StoredOf(done)|
            && Deliveries(events) == s.rejected + s.duplicates + |taken|
  {
    RunFollows(EMPTY, events);
  }

  /** A claim that is won is alive for seven days to the second, and then can be won again. */
  lemma ClaimsLastAWeek(s: State, d: Delivery, now: int, later: int)
    requires Wins(s, d, now)
    ensures Claimable(Arrived(s, d, now).seen, d.eventId.value, later) <==> later >= now + 604_800
    ensures forall id :: id != d.eventId.value ==>
              (Claimable(Arrived(s, d, now).seen, id, later) <==> Claimable(s.seen, id, later))
  {
  }

  lemma {:induction false} RunSkew(s: State, events: seq<Event>)
    requires IsRun(s, events)
    ensures var t, stored := After(s, events), StoredOf(Finished(s, events));
            && s.maxSkew <= t.maxSkew && (forall o :: o in stored ==> o.receivedAt - o.eventTime <= t.maxSkew)
            && (t.maxSkew == s.maxSkew || exists o :: o in stored && o.receivedAt - o.eventTime == t.maxSkew)
    decreases |events|
  {
    if events != [] {
      var rest := events[1..];
      match events[0]
      case Arrive(d, now) =>
        RunSkew(Arrived(s, d, now), rest);
        var orphan := OrphanIn(NoteOf(s, d, now));
        StoredJoin(orphan, Finished(Arrived(s, d, now), rest));
        if orphan != [] {
          OneNote(orphan[0]);
          assert orphan == [orphan[0]];
        }
      case Complete(k) =>
        RunSkew(Completed(s, k), rest);
        StoredFirst(Stored(s.pending[k]), Finished(Completed(s, k), rest));
    }
  }

  /** The skew reported is the greatest of all that was stored, and zero as long as none is positive. */
  lemma SkewIsGreatest(events: seq<Event>)
    requires IsRun(EMPTY, events)
    ensures var s, stored := After(EMPTY, events), StoredOf(Finished(EMPTY, events));
            && s.maxSkew >= 0 && (forall o :: o in stored ==> o.receivedAt - o.eventTime <= s.maxSkew)
            && (s.maxSkew == 0 || exists o :: o in stored && o.receivedAt - o.eventTime == s.maxSkew)
  {
    RunSkew(EMPTY, events);
  }
}
