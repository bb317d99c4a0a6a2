/**
 The entry point of the demonstration and the usage scenarios of the hub.
 Console output is returned as the sequence of lines `Console.WriteLine`
 would receive, one element per call; a leading "\n" in a heading stays
 inside its string, as in the C# literal.
 */
module Program {
  import opened Logging
  import opened Observers
  import opened Shapes
  import opened Lists

  /** The whole console output of the C# `Main`: two log lines, one
      notification line each for Alice and Bob in subscription order, and the
      line a circle draws. */
  method RunProgram() returns (console: seq<string>)
    ensures console == [
      "--- 1. Testing Singleton Pattern ---",
      "[LOG]: System initialized.",
      "[LOG]: User logged in.",
      "\n--- 2. Testing Observer Pattern ---",
      "Alice" + " has received a notification: " + "New update available!",
      "Bob" + " has received a notification: " + "New update available!",
      "\n--- 3. Testing Factory Method Pattern ---",
      "Drawing Circle"
    ]
  {
    var logged := Instance.Log("System initialized.");
    var loggedIn := Instance.Log("User logged in.");
    InitializedLogLine();
    LoggedInLogLine();

    var notified := AliceAndBob();

    var factory := CircleFactory;
    var shape := factory.CreateShape();
    var drawn := shape.Draw();
    assert drawn == "Drawing Circle";

    console := ["--- 1. Testing Singleton Pattern ---", logged, loggedIn]
      + ["\n--- 2. Testing Observer Pattern ---"] + notified
      + ["\n--- 3. Testing Factory Method Pattern ---", drawn];
  }

  /** The first line the singleton logger writes in `Main`. */
  lemma InitializedLogLine()
    ensures Instance.Log("System initialized.") == "[LOG]: System initialized."
  {
    assert Instance.Log("System initialized.") == LogPrefix + "System initialized.";
  }

  /** The second line the singleton logger writes in `Main`. */
  lemma LoggedInLogLine()
    ensures Instance.Log("User logged in.") == "[LOG]: User logged in."
  {
    assert Instance.Log("User logged in.") == LogPrefix + "User logged in.";
  }

  /** The observer part of `Main`: Alice and then Bob subscribe, and one
      notification reaches Alice first and Bob second. */
  method AliceAndBob() returns (lines: seq<string>)
    ensures lines == [
      "Alice" + " has received a notification: " + "New update available!",
      "Bob" + " has received a notification: " + "New update available!"
    ]
  {
    var service := new NotificationService();
    var alice := new User("Alice");
    var bob := new User("Bob");
    service.Subscribe(alice);
    service.Subscribe(bob);
    var deliveries := service.Notify("New update available!");
    assert service.observers == [alice, bob];
    lines := Transcript(deliveries);
    assert lines == [alice.Update("New update available!"), bob.Update("New update available!")];
  }

  /** Subscribing a user and unsubscribing the same user leaves nobody to
      notify. */
  method SubscribeThenUnsubscribe() returns (deliveries: seq<Delivery>)
    ensures deliveries == []
  {
    var service := new NotificationService();
    var alice := new User("Alice");
    service.Subscribe(alice);
    service.Unsubscribe(alice);
    deliveries := service.Notify("x");
  }

  /** Two users built with the same name are notified with identical lines. */
  method SameNameSameLine() returns (both: seq<string>)
    ensures both == [
      "Alice" + " has received a notification: " + "x",
      "Alice" + " has received a notification: " + "x"
    ]
  {
    var service := new NotificationService();
    var first := new User("Alice");
    var second := new User("Alice");
    service.Subscribe(first);
    service.Subscribe(second);
    var deliveries := service.Notify("x");
    both := Transcript(deliveries);
    assert both == [first.Update("x"), second.Update("x")];
    AliceLine(first);
    AliceLine(second);
  }

  /** Two users built with the same name are two handles: unsubscribing the
      later one leaves exactly the earlier one. Were handles compared by name,
      the earlier one would be the one removed. */
  method SameNameTwoHandles() returns (first: User, second: User, after: seq<Delivery>)
    ensures first != second
    ensures first.name == "Alice" && second.name == "Alice"
    ensures Recipients(after) == [first]
  {
    var service := new NotificationService();
    first := new User("Alice");
    second := new User("Alice");
    service.Subscribe(first);
    service.Subscribe(second);
    service.Unsubscribe(second);
    FirstIndexIs([first, second], second, 1);
    assert service.observers == [first];
    after := service.Notify("x");
    BroadcastRecipients([first], "x");
  }

  /** The line a user named Alice writes for the message "x". */
  lemma AliceLine(u: User)
    requires u.name == "Alice"
    ensures u.Update("x") == "Alice" + " has received a notification: " + "x"
  {
  }

  /** Subscribing the same handle twice yields two deliveries; unsubscribing
      it once leaves one. */
  method DuplicateRegistration() returns (before: seq<Delivery>, after: seq<Delivery>)
    ensures |before| == 2 && before[0] == before[1]
    ensures |after| == 1 && after[0] == before[0]
  {
    var service := new NotificationService();
    var alice := new User("Alice");
    service.Subscribe(alice);
    service.Subscribe(alice);
    before := service.Notify("x");
    service.Unsubscribe(alice);
    after := service.Notify("x");
  }

  /** Unsubscribing a handle that was never subscribed changes nothing that a
      later notification could show. */
  method UnsubscribeUnknown() returns (deliveries: seq<Delivery>, alice: User)
    ensures Recipients(deliveries) == [alice]
    ensures Transcript(deliveries) == ["Alice" + " has received a notification: " + "x"]
  {
    var service := new NotificationService();
    alice := new User("Alice");
    var bob := new User("Bob");
    service.Subscribe(alice);
    service.Unsubscribe(bob);
    FirstIndexIs([alice], bob, 1);
    assert service.observers == [alice];
    deliveries := service.Notify("x");
    BroadcastRecipients([alice], "x");
    assert Transcript(deliveries) == [alice.Update("x")];
    AliceLine(alice);
  }

  /** `Notify` leaves the list alone, so notifying twice with no subscription
      change in between delivers the same sequence twice. */
  method NotifyTwice(service: NotificationService, message: string)
    returns (first: seq<Delivery>, second: seq<Delivery>)
    ensures first == second
    ensures Recipients(first) == service.observers
  {
    first := service.Notify(message);
    second := service.Notify(message);
    BroadcastRecipients(service.observers, message);
  }
}
