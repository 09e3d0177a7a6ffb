/** Topic names and delivery on the in-memory bus, `asb/topics.py` and `asb/memory.py`. */
module Topics {
  import opened Text

  const PREFIX := "/topic/"

  /** Everything before the first '<'. */
  function Base(s: string): string {
    if s == "" || s[0] == '<' then "" else [s[0]] + Base(s[1..])
  }

  function TopicDest(messageType: string): string {
    var name := Strip(messageType);
    if PREFIX <= name then Base(name) else PREFIX + name
  }

  function MessageType(destination: string): string {
    var dest := Strip(destination);
    Base(if PREFIX <= dest then dest[|PREFIX|..] else dest)
  }

  function Aliases(messageType: string): set<string> {
    {TopicDest(messageType), TopicDest(messageType) + "<None>"}
  }

  /** The aliases of the first k types. */
  function AllAliases(names: seq<string>, k: nat): set<string>
    requires k <= |names|
  {
    if k == 0 then {} else AllAliases(names, k - 1) + Aliases(names[k - 1])
  }

  /** The same destination, or the same topic whatever stands in angle brackets. */
  predicate Match(published: string, subscribed: string) {
    published == subscribed || Base(published) == Base(subscribed)
  }

  predicate Subscribed(subscriptions: set<string>, destination: string) {
    exists sub :: sub in subscriptions && Match(destination, sub)
  }

  /** What a publish comes to: refused, recorded only, or recorded and handed to the handlers. */
  datatype Outcome = NotConnected | Recorded | Dispatched(messageType: string)

  class InMemoryAsb {
    var connected: bool
    var subscriptions: set<string>
    var published: seq<(string, string)>

    constructor ()
      ensures !connected && subscriptions == {} && published == []
    {
      connected, subscriptions, published := false, {}, [];
    }

    method Connect()
      modifies this`connected
      ensures connected
    {
      connected := true;
    }

    method Disconnect()
      modifies this`connected
      ensures !connected
    {
      connected := false;
    }

    method Subscribe(messageType: string)
      modifies this`subscriptions
      ensures subscriptions == old(subscriptions) + Aliases(messageType)
    {
      subscriptions := subscriptions + Aliases(messageType);
    }

    /** What the Isolator does on attaching: connects, then subscribes to each type its handlers name. */
    method Attach(names: seq<string>)
      modifies this`connected, this`subscriptions
      ensures connected && subscriptions == old(subscriptions) + AllAliases(names, |names|)
    {
      Connect();
      for k := 0 to |names|
        invariant connected && subscriptions == old(subscriptions) + AllAliases(names, k)
      {
        Subscribe(names[k]);
      }
    }

    method IsSubscribed(destination: string) returns (found: bool)
      ensures found <==> Subscribed(subscriptions, destination)
    {
      var left := subscriptions;
      while left != {}
        invariant left <= subscriptions
        invariant forall sub :: sub in subscriptions - left ==> !Match(destination, sub)
      {
        var sub :| sub in left;
        if Match(destination, sub) {
          return true;
        }
        left := left - {sub};
      }
      return false;
    }

    /** Recorded whenever connected; handed on when someone has subscribed to it, or nobody to anything. */
    method Publish(messageType: string, body: string) returns (outcome: Outcome)
      modifies this`published
      ensures outcome.NotConnected? <==> !connected
      ensures published == if connected then old(published) + [(MessageType(TopicDest(messageType)), body)]
        else old(published)
      ensures outcome.Dispatched? <==>
        connected && (subscriptions == {} || Subscribed(subscriptions, TopicDest(messageType)))
      ensures outcome.Dispatched? ==> outcome.messageType == MessageType(TopicDest(messageType))
    {
      if !connected {
        return NotConnected;
      }
      var dest := TopicDest(messageType);
      var name := MessageType(dest);
      published := published + [(name, body)];
      var wanted := IsSubscribed(dest);
      return if wanted || subscriptions == {} then Dispatched(name) else Recorded;
    }
  }

  // ---- Message types, as the Isolator names them -----------------------------------------------------------

  /** A message type's own name: nothing to strip, no brackets, no prefix. */
  predicate PlainName(name: string) {
    Strip(name) == name && '<' !in name && !(PREFIX <= name)
  }

  lemma {:induction false} BaseOfPlain(s: string, rest: string)
    requires '<' !in s
    ensures Base(s) == s && Base(s + "<" + rest) == s
  {
    var all := s + "<" + rest;
    if s == "" {
      assert all[0] == '<';
    } else {
      BaseOfPlain(s[1..], rest);
      assert all[0] == s[0] && all[1..] == s[1..] + "<" + rest;
    }
  }

  /** The destination of a plain name starts with no space, and ends as the name does. */
  lemma StripDest(name: string)
    requires PlainName(name)
    ensures Strip(PREFIX + name) == PREFIX + name
  {
    var dest := PREFIX + name;
    assert dest[0] == '/';
    assert StripLeft(dest) == dest;
    if name == "" {
      assert dest == PREFIX && dest[|dest| - 1] == '/';
    } else {
      StripKeepsEnd(name);
      assert dest[|dest| - 1] == name[|name| - 1];
    }
  }

  /** What a publisher calls a message is what the handlers are told it is. */
  lemma NameSurvives(name: string)
    requires PlainName(name)
    ensures TopicDest(name) == PREFIX + name && MessageType(TopicDest(name)) == name
  {
    StripDest(name);
    BaseOfPlain(name, "");
    assert (PREFIX + name)[|PREFIX|..] == name;
  }

  lemma {:induction false} StripKeepsEnd(name: string)
    requires name != "" && Strip(name) == name
    ensures !IsSpace(name[|name| - 1])
  {
    StripShrinks(name);
    StripRightShrinks(StripLeft(name));
    if IsSpace(name[|name| - 1]) {
      assert StripLeft(name) == name || |StripLeft(name)| < |name|;
      StripRightShrinks(name[..|name| - 1]);
      assert false;
    }
  }

  lemma {:induction false} StripShrinks(s: string)
    ensures |StripLeft(s)| <= |s| && (|StripLeft(s)| == |s| ==> StripLeft(s) == s)
  {
    if s == "" {
    } else {
      StripShrinks(s[1..]);
    }
  }

  lemma {:induction false} StripRightShrinks(s: string)
    ensures |StripRight(s)| <= |s|
  {
    if s == "" {
    } else {
      StripRightShrinks(s[..|s| - 1]);
    }
  }

  /** Both aliases of a type have its own topic for their base. */
  lemma AliasBases(name: string)
    requires PlainName(name)
    ensures Base(TopicDest(name)) == TopicDest(name) && Base(TopicDest(name) + "<None>") == TopicDest(name)
  {
    NameSurvives(name);
    var dest := TopicDest(name);
    BaseOfPlain(dest, "None>");
    assert dest + "<None>" == dest + "<" + "None>";
  }

  lemma SameTopicSameName(a: string, b: string)
    requires PlainName(a) && PlainName(b)
    ensures TopicDest(a) == TopicDest(b) <==> a == b
  {
    NameSurvives(a);
    NameSurvives(b);
  }

  lemma MatchExactly(a: string, b: string)
    requires PlainName(a) && PlainName(b)
    ensures Match(TopicDest(a), TopicDest(b)) <==> a == b
    ensures Match(TopicDest(a), TopicDest(b) + "<None>") <==> a == b
  {
    AliasBases(a);
    AliasBases(b);
    SameTopicSameName(a, b);
  }

  lemma SubscribedToEither(a: set<string>, b: set<string>, destination: string)
    ensures Subscribed(a + b, destination) <==> Subscribed(a, destination) || Subscribed(b, destination)
  {
  }

  lemma SubscribedToOne(name: string, other: string)
    requires PlainName(name) && PlainName(other)
    ensures Subscribed(Aliases(other), TopicDest(name)) <==> name == other
  {
    MatchExactly(name, other);
    assert TopicDest(other) in Aliases(other);
  }

  /** Once these types are subscribed to, in whatever order, a message is delivered exactly if it is of one
      of them: under its own topic or the bracketed alias, and no other type with it. */
  lemma {:induction false} DeliveredExactly(names: seq<string>, k: nat, name: string)
    requires k <= |names| && PlainName(name) && forall i :: 0 <= i < |names| ==> PlainName(names[i])
    ensures Subscribed(AllAliases(names, k), TopicDest(name)) <==> name in names[..k]
  {
    if k == 0 {
    } else {
      DeliveredExactly(names, k - 1, name);
      SubscribedToOne(name, names[k - 1]);
      SubscribedToEither(AllAliases(names, k - 1), Aliases(names[k - 1]), TopicDest(name));
      assert names[..k] == names[..k - 1] + [names[k - 1]];
    }
  }
}
