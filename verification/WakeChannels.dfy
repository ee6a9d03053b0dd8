/**
 * The wake channels of the database backends. A worker captures the current
 * channel of its queue; a broadcast closes that channel and puts a new one in
 * its place.
 */
module WakeChannels {

  /**
   * The value model: channels of a queue are numbered in the order they are
   * made, and a captured channel is closed once its queue has a newer one.
   */
  type Generations = map<string, nat>

  function Captured(gens: Generations, queue: string): (nat, Generations) {
    if queue in gens then (gens[queue], gens) else (0, gens[queue := 0])
  }

  function Broadcast(gens: Generations, queue: string): Generations {
    gens[queue := if queue in gens then gens[queue] + 1 else 0]
  }

  function BroadcastEvery(gens: Generations): Generations {
    map queue | queue in gens :: gens[queue] + 1
  }

  predicate Closed(gens: Generations, queue: string, gen: nat) {
    queue in gens && gen < gens[queue]
  }

  class Channel {
    const queue: string
    ghost const gen: nat
    var closed: bool

    constructor (queue: string, ghost gen: nat)
      ensures this.queue == queue && this.gen == gen && !closed
    {
      this.queue := queue;
      this.gen := gen;
      closed := false;
    }

    /** Closing a closed channel panics. */
    method Close()
      requires !closed
      modifies this
      ensures closed
    {
      closed := true;
    }
  }

  class Waker {
    var notifies: map<string, Channel>
    ghost var made: set<Channel>

    /** A queue's current channel is open; all its earlier channels are closed. */
    ghost predicate Valid()
      reads this, made
    {
      && (forall queue :: queue in notifies ==>
            notifies[queue] in made && notifies[queue].queue == queue && !notifies[queue].closed)
      && (forall ch :: ch in made ==>
            && ch.queue in notifies
            && (ch != notifies[ch.queue] ==> ch.closed && ch.gen < notifies[ch.queue].gen))
    }

    ghost function Gens(): Generations
      reads this
    {
      map queue | queue in notifies :: notifies[queue].gen
    }

    /** Every channel ever handed out is closed exactly when the model says so. */
    lemma ClosedAsModelled(ch: Channel)
      requires Valid() && ch in made
      ensures ch.closed <==> Closed(Gens(), ch.queue, ch.gen)
    {
    }

    /** All channels of the set were made no later than the model says. */
    ghost predicate NoneAfter(chs: set<Channel>, gens: Generations) {
      forall ch :: ch in chs ==> ch.queue in gens && ch.gen <= gens[ch.queue]
    }

    /** One broadcast to every queue closes whatever was handed out before. */
    lemma AllClosed(chs: set<Channel>, was: Generations)
      requires Valid() && chs <= made && NoneAfter(chs, was) && Gens() == BroadcastEvery(was)
      ensures forall ch :: ch in chs ==> ch.closed
    {
      forall ch | ch in chs ensures ch.closed {
        ClosedAsModelled(ch);
      }
    }

    lemma AllAsModelled()
      requires Valid()
      ensures forall ch :: ch in made ==> (ch.closed <==> Closed(Gens(), ch.queue, ch.gen))
    {
      forall ch | ch in made ensures ch.closed <==> Closed(Gens(), ch.queue, ch.gen) {
        ClosedAsModelled(ch);
      }
    }

    constructor ()
      ensures Valid() && Gens() == map[] && made == {}
    {
      notifies, made := map[], {};
    }

    method Notify(queue: string) returns (ch: Channel)
      requires Valid()
      modifies this
      ensures Valid() && ch in made && fresh(made - old(made)) && old(made) <= made
      ensures ch.queue == queue && (ch.gen, Gens()) == Captured(old(Gens()), queue) && !ch.closed
      ensures notifies == old(notifies)[queue := ch]
      ensures if queue in old(notifies) then ch == old(notifies)[queue] && made == old(made) else fresh(ch)
    {
      if queue in notifies {
        ch := notifies[queue];
      } else {
        ch := new Channel(queue, 0);
        notifies := notifies[queue := ch];
        made := made + {ch};
        assert Gens() == old(Gens())[queue := 0];
      }
    }

    method BroadcastLocal(queue: string)
      requires Valid()
      modifies this, made
      ensures Valid() && fresh(made - old(made)) && old(made) <= made
      ensures Gens() == Broadcast(old(Gens()), queue)
      ensures forall ch :: ch in old(made) ==> (ch.closed <==> old(ch.closed) || ch.queue == queue)
    {
      ghost var was := Gens();
      assert NoneAfter(made, was);
      AllAsModelled();
      Replace(queue);
      AllAsModelled();
    }

    /** Closes the current channel of the queue, if there is one, and puts a new one in its place. */
    method Replace(queue: string)
      requires Valid()
      modifies this, made
      ensures Valid() && fresh(made - old(made)) && old(made) <= made
      ensures Gens() == Broadcast(old(Gens()), queue)
    {
      ghost var gen := 0;
      if queue in notifies {
        gen := notifies[queue].gen + 1;
        notifies[queue].Close();
      }
      var ch := new Channel(queue, gen);
      notifies := notifies[queue := ch];
      made := made + {ch};
      forall c | c in made
        ensures c.queue in notifies && (c != notifies[c.queue] ==> c.closed && c.gen < notifies[c.queue].gen)
      {
        if c != ch && c.queue == queue {
          assert old(c in made && queue in notifies);
        }
      }
      assert Gens() == Broadcast(old(Gens()), queue);
    }

    /** Closes and replaces the channel of every queue, one after the other. */
    method BroadcastAll()
      requires Valid()
      modifies this, made
      ensures Valid() && fresh(made - old(made)) && old(made) <= made
      ensures Gens() == BroadcastEvery(old(Gens()))
      ensures forall ch :: ch in old(made) ==> ch.closed
    {
      var todo := notifies.Keys;
      ghost var order: seq<string>, was := [], Gens();
      assert NoneAfter(made, was);
      while todo != {}
        invariant Valid() && fresh(made - old(made)) && old(made) <= made
        invariant Gens() == BroadcastOver(was, order) && Partway(was, order, todo)
        decreases todo
      {
        var queue :| queue in todo;
        assert Gens().Keys == was.Keys by { EachOnce(was, order, todo); }
        Replace(queue);
        todo := todo - {queue};
        order := order + [queue];
        assert order[..|order| - 1] + [queue] == order;
      }
      EachOnce(was, order, {});
      AllClosed(old(made), was);
    }
  }

  /** One broadcast after the other, in this order. */
  ghost function BroadcastOver(gens: Generations, order: seq<string>): Generations {
    if order == [] then gens else Broadcast(BroadcastOver(gens, order[..|order| - 1]), order[|order| - 1])
  }

  ghost predicate Partway(gens: Generations, order: seq<string>, todo: set<string>) {
    && (forall q :: q in order ==> q in gens && q !in todo)
    && (forall q :: q in gens ==> q in order || q in todo)
    && (forall q :: q in todo ==> q in gens)
    && (forall i, j :: 0 <= i < j < |order| ==> order[i] != order[j])
  }

  lemma {:induction false} EachAtMostOnce(gens: Generations, order: seq<string>, q: string)
    requires q in gens && forall k :: k in order ==> k in gens
    requires forall i, j :: 0 <= i < j < |order| ==> order[i] != order[j]
    ensures BroadcastOver(gens, order).Keys == gens.Keys
    ensures BroadcastOver(gens, order)[q] == gens[q] + if q in order then 1 else 0
  {
    if order != [] {
      var init, last := order[..|order| - 1], order[|order| - 1];
      EachAtMostOnce(gens, init, q);
      assert last in gens;
      assert q in order <==> q in init || q == last;
    }
  }

  /** Broadcasting once to each queue, in whatever order, is one broadcast to every queue. */
  lemma EachOnce(gens: Generations, order: seq<string>, todo: set<string>)
    requires Partway(gens, order, todo)
    ensures BroadcastOver(gens, order).Keys == gens.Keys
    ensures todo == {} ==> BroadcastOver(gens, order) == BroadcastEvery(gens)
  {
    forall q | q in gens
      ensures q in BroadcastOver(gens, order) && (todo == {} ==> BroadcastOver(gens, order)[q] == gens[q] + 1)
      ensures BroadcastOver(gens, order).Keys == gens.Keys
    {
      EachAtMostOnce(gens, order, q);
    }
    if order != [] {
      assert order[0] in gens;
    }
  }
}
