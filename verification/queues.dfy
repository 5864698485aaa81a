/** The per-guild song queues: a map from guild to its list of songs, the
    two ways a song enters a queue and the removal of the head. */
module Queues {
  import opened VoiceTypes

  type QueueStore = map<GuildId, seq<Song>>

  /** Adds a song: the priority user's song goes in front, any other at the tail. */
  function Enqueue(q: seq<Song>, s: Song, priority: bool): (r: seq<Song>)
    ensures |r| == |q| + 1
    ensures multiset(r) == multiset(q) + multiset{s}
    ensures priority ==> r[0] == s && r[1..] == q
    ensures !priority ==> r[|q|] == s && r[..|q|] == q
  {
    if priority then [s] + q else q + [s]
  }

  /** The store once the guild has a queue: an existing queue is kept, a
      missing one is created empty. */
  function WithQueue(qs: QueueStore, g: GuildId): (r: QueueStore)
    ensures r.Keys == qs.Keys + {g}
    ensures r[g] == (if g in qs then qs[g] else [])
    ensures forall h :: h in qs && h != g ==> r[h] == qs[h]
  {
    if g in qs then qs else qs[g := []]
  }

  /** Takes the head off the guild's queue, if the guild has a non-empty one;
      no other queue changes. */
  function PopHead(qs: QueueStore, g: GuildId): (r: (Option<Song>, QueueStore))
    ensures r.0.Some? <==> g in qs && qs[g] != []
    ensures r.0.None? ==> r.1 == qs
    ensures r.0.Some? ==> r.1.Keys == qs.Keys && qs[g] == [r.0.value] + r.1[g]
    ensures forall h :: h in qs && h != g ==> h in r.1 && r.1[h] == qs[h]
  {
    if g in qs && qs[g] != [] then (Some(qs[g][0]), qs[g := qs[g][1..]]) else (None, qs)
  }

  /** A priority song is the next one taken, and taking it restores the store. */
  lemma {:induction false} PriorityIsNext(qs: QueueStore, g: GuildId, s: Song)
    requires g in qs
    ensures PopHead(qs[g := Enqueue(qs[g], s, true)], g) == (Some(s), qs)
  {
    var pushed := qs[g := Enqueue(qs[g], s, true)];
    var (head, rest) := PopHead(pushed, g);
    assert head == Some(s);
    assert rest[g] == qs[g];
    assert rest == qs;
  }

  /** Another user's song never overtakes: appending it to a non-empty queue
      leaves the next song unchanged, and appending commutes with taking the head. */
  lemma {:induction false} AppendKeepsHead(qs: QueueStore, g: GuildId, s: Song)
    requires g in qs && qs[g] != []
    ensures var (head, rest) := PopHead(qs, g);
            PopHead(qs[g := Enqueue(qs[g], s, false)], g)
              == (head, rest[g := Enqueue(rest[g], s, false)])
  {
    var (head, rest) := PopHead(qs, g);
    var (head', rest') := PopHead(qs[g := Enqueue(qs[g], s, false)], g);
    assert head'.value == (qs[g] + [s])[0] == qs[g][0];
    assert rest'[g] == rest[g] + [s] by {
      assert qs[g] + [s] == [head'.value] + rest'[g];
      assert qs[g] == [head.value] + rest[g];
    }
    assert rest' == rest[g := Enqueue(rest[g], s, false)];
  }

  /** A request to add a song, and whether it came from the priority user. */
  datatype Request = Request(song: Song, priority: bool)

  /** The queue after the requests are added one after the other. */
  function EnqueueAll(q: seq<Song>, reqs: seq<Request>): seq<Song>
    decreases |reqs|
  {
    if reqs == [] then q
    else
      var last := reqs[|reqs| - 1];
      Enqueue(EnqueueAll(q, reqs[..|reqs| - 1]), last.song, last.priority)
  }

  /** The songs of the priority requests, in request order. */
  function PrioritySongs(reqs: seq<Request>): seq<Song>
    decreases |reqs|
  {
    if reqs == [] then []
    else
      var last := reqs[|reqs| - 1];
      PrioritySongs(reqs[..|reqs| - 1]) + (if last.priority then [last.song] else [])
  }

  /** The songs of the other requests, in request order. */
  function OtherSongs(reqs: seq<Request>): seq<Song>
    decreases |reqs|
  {
    if reqs == [] then []
    else
      var last := reqs[|reqs| - 1];
      OtherSongs(reqs[..|reqs| - 1]) + (if last.priority then [] else [last.song])
  }

  function Reverse(s: seq<Song>): seq<Song>
    decreases |s|
  {
    if s == [] then [] else [s[|s| - 1]] + Reverse(s[..|s| - 1])
  }

  lemma ReverseSnoc(s: seq<Song>, x: Song)
    ensures Reverse(s + [x]) == [x] + Reverse(s)
  {
    assert (s + [x])[..|s|] == s;
  }

  /** One more request: its song goes in front of the run so far, or behind it. */
  lemma EnqueueAllLast(q: seq<Song>, reqs: seq<Request>)
    requires reqs != []
    ensures var init, last := reqs[..|reqs| - 1], reqs[|reqs| - 1];
            EnqueueAll(q, reqs) ==
              if last.priority then [last.song] + EnqueueAll(q, init)
              else EnqueueAll(q, init) + [last.song]
  {
  }

  lemma SplitLast(reqs: seq<Request>)
    requires reqs != []
    ensures var init, last := reqs[..|reqs| - 1], reqs[|reqs| - 1];
            PrioritySongs(reqs) == PrioritySongs(init) + (if last.priority then [last.song] else []) &&
            OtherSongs(reqs) == OtherSongs(init) + (if last.priority then [] else [last.song])
  {
  }

  lemma Regroup(x: Song, a: seq<Song>, b: seq<Song>, c: seq<Song>)
    ensures [x] + (a + b + c) == ([x] + a) + b + c
    ensures (a + b + c) + [x] == a + b + (c + [x])
  {
  }

  /** Any run of additions leaves the priority songs in front, the most recent
      one first, then the songs already queued in their order, then the other
      songs in the order they were requested. */
  lemma {:induction false} EnqueueAllShape(q: seq<Song>, reqs: seq<Request>)
    ensures EnqueueAll(q, reqs) == Reverse(PrioritySongs(reqs)) + q + OtherSongs(reqs)
    decreases |reqs|
  {
    if reqs != [] {
      var init := reqs[..|reqs| - 1];
      var last := reqs[|reqs| - 1];
      EnqueueAllShape(q, init);
      EnqueueAllLast(q, reqs);
      SplitLast(reqs);
      var p, o, e := PrioritySongs(init), OtherSongs(init), EnqueueAll(q, init);
      if last.priority {
        assert EnqueueAll(q, reqs) == [last.song] + e;
        assert PrioritySongs(reqs) == p + [last.song];
        assert OtherSongs(reqs) == o;
        ReverseSnoc(p, last.song);
        Regroup(last.song, Reverse(p), q, o);
      } else {
        assert EnqueueAll(q, reqs) == e + [last.song];
        assert PrioritySongs(reqs) == p;
        assert OtherSongs(reqs) == o + [last.song];
        Regroup(last.song, Reverse(p), q, o);
      }
    }
  }
}
