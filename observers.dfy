/**
 The observer hub of the demonstration: a `NotificationService` keeps an
 ordered list of observer handles, `Subscribe` appends one, `Unsubscribe`
 removes the first one equal to its argument, and `Notify` hands a message to
 every handle in the list, in order.

 The only observer kind is `User`. It does not redefine equality, so handles
 are compared by reference: a Dafny class gives exactly that, and two users
 built with the same name are two different handles. What `User.Update`
 writes to the console is returned here as a `Delivery` record instead.
 */
module Observers {
  import opened Lists

  /** The text `User.Update` puts between the user's name and the message. */
  const NotificationSeparator := " has received a notification: "

  class User {
    const name: string

    constructor (name: string)
      ensures this.name == name
    {
      this.name := name;
    }

    /** The console line this user writes on receiving `message`: the name,
        then the fixed separator, then the message, with nothing else. */
    function Update(message: string): (line: string)
      ensures |line| == |name| + |NotificationSeparator| + |message|
      ensures line[..|name|] == name
      ensures line[|name|..|name| + |NotificationSeparator|] == NotificationSeparator
      ensures line[|name| + |NotificationSeparator|..] == message
    {
      name + NotificationSeparator + message
    }
  }

  /** Two users whose names have the same length write the same line only
      when they have the same name and received the same message. (Names of
      different lengths can give equal lines, since a name or a message may
      itself contain the separator.) */
  lemma UpdateIsInjective(u: User, v: User, m1: string, m2: string)
    ensures u.Update(m1) == v.Update(m2) && |u.name| == |v.name| ==> u.name == v.name && m1 == m2
  {
    if u.Update(m1) == v.Update(m2) && |u.name| == |v.name| {
      assert u.name == u.Update(m1)[..|u.name|];
      assert m1 == u.Update(m1)[|u.name| + |NotificationSeparator|..];
    }
  }

  /** One call of `Update` made by `Notify`: who received it and the line it
      rendered. */
  datatype Delivery = Delivery(recipient: User, line: string)

  /** The recipients of a sequence of deliveries, in delivery order. */
  function Recipients(ds: seq<Delivery>): seq<User>
  {
    seq(|ds|, i requires 0 <= i < |ds| => ds[i].recipient)
  }

  /** The console lines of a sequence of deliveries, in delivery order. */
  function Transcript(ds: seq<Delivery>): seq<string>
  {
    seq(|ds|, i requires 0 <= i < |ds| => ds[i].line)
  }

  /** What broadcasting `message` to the list `obs` delivers: one delivery per
      list entry, in list order, each rendered by its recipient. */
  function Broadcast(obs: seq<User>, message: string): (ds: seq<Delivery>)
    ensures |ds| == |obs|
    ensures forall i :: 0 <= i < |ds| ==> ds[i].recipient == obs[i]
    ensures forall i :: 0 <= i < |ds| ==> ds[i].line == obs[i].Update(message)
  {
    if obs == [] then []
    else
      var last := obs[|obs| - 1];
      Broadcast(obs[..|obs| - 1], message) + [Delivery(last, last.Update(message))]
  }

  /** Every registration is delivered to exactly once, in registration order:
      the recipients are the list itself. */
  lemma {:induction false} BroadcastRecipients(obs: seq<User>, message: string)
    ensures Recipients(Broadcast(obs, message)) == obs
  {
    var rs := Recipients(Broadcast(obs, message));
    assert |rs| == |obs|;
    assert forall i :: 0 <= i < |obs| ==> rs[i] == obs[i];
  }

  /** A handle registered k times receives k deliveries, duplicates included. */
  lemma {:induction false} BroadcastCountsRegistrations(obs: seq<User>, message: string, o: User)
    ensures multiset(Recipients(Broadcast(obs, message)))[o] == multiset(obs)[o]
  {
    BroadcastRecipients(obs, message);
  }

  /** A handle subscribed last is notified last, after everything the list
      delivered before. */
  lemma {:induction false} BroadcastAfterSubscribe(obs: seq<User>, o: User, message: string)
    ensures Broadcast(obs + [o], message) == Broadcast(obs, message) + [Delivery(o, o.Update(message))]
  {
    assert (obs + [o])[..|obs|] == obs;
  }

  /** Broadcasting after removing the first `x` delivers what broadcasting
      before would have delivered, less the first delivery to `x`. */
  lemma {:induction false} BroadcastAfterUnsubscribe(obs: seq<User>, x: User, message: string)
    ensures Broadcast(RemoveFirst(obs, x), message)
         == RemoveFirst(Broadcast(obs, message), Delivery(x, x.Update(message)))
  {
    var i := FirstIndex(obs, x);
    FirstIndexIs(Broadcast(obs, message), Delivery(x, x.Update(message)), i);
    if i < |obs| {
      BroadcastOfCut(obs, i, message);
    }
  }

  /** Broadcasting to a list with one position cut out delivers the same as
      cutting that position out of the broadcast. */
  lemma {:induction false} BroadcastOfCut(obs: seq<User>, i: nat, message: string)
    requires i < |obs|
    ensures Broadcast(obs[..i] + obs[i + 1..], message)
         == Broadcast(obs, message)[..i] + Broadcast(obs, message)[i + 1..]
  {
    var kept := obs[..i] + obs[i + 1..];
    var all := Broadcast(obs, message);
    var left := Broadcast(kept, message);
    var right := all[..i] + all[i + 1..];
    forall k | 0 <= k < |left|
      ensures left[k] == right[k]
    {
      var j := if k < i then k else k + 1;
      assert kept[k] == obs[j] && right[k] == all[j];
    }
  }

  /** The hub. The C# class keeps a private `List<IObserver>`; `observers` is
      that list. */
  class NotificationService {
    var observers: seq<User>

    /** A new hub has no subscribers. */
    constructor ()
      ensures observers == []
    {
      observers := [];
    }

    /** Append `observer`; duplicates are allowed and kept. */
    method Subscribe(observer: User)
      modifies this
      ensures observers == old(observers) + [observer]
      ensures |observers| == |old(observers)| + 1
      ensures observers[|observers| - 1] == observer
      ensures forall i :: 0 <= i < |old(observers)| ==> observers[i] == old(observers)[i]
    {
      observers := observers + [observer];
    }

    /** Remove the first entry that is `observer` itself; do nothing, and
        report nothing, when there is none. */
    method Unsubscribe(observer: User)
      modifies this
      ensures observers == RemoveFirst(old(observers), observer)
      ensures observer !in old(observers) ==> observers == old(observers)
      ensures observer in old(observers) ==> |observers| == |old(observers)| - 1
      ensures multiset(observers) == multiset(old(observers)) - multiset{observer}
      ensures Without(observers, observer) == Without(old(observers), observer)
    {
      RemoveFirstCounts(observers, observer);
      RemoveFirstKeepsOthers(observers, observer);
      observers := RemoveFirst(observers, observer);
    }

    /** Call `Update(message)` on every entry, in list order. The list itself
        is left as it is. */
    method Notify(message: string) returns (deliveries: seq<Delivery>)
      ensures deliveries == Broadcast(observers, message)
    {
      deliveries := [];
      for i := 0 to |observers|
        invariant deliveries == Broadcast(observers[..i], message)
      {
        var observer := observers[i];
        assert observers[..i + 1][..i] == observers[..i];
        deliveries := deliveries + [Delivery(observer, observer.Update(message))];
      }
      assert observers[..|observers|] == observers;
    }
  }
}
