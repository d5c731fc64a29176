/** Properties of the node value objects that relate several operations or
    describe the views as a whole. */
module NodeLemmas {
  import opened Wrappers
  import opened Util
  import opened StructValues
  import opened Node

  /** Two node identities are equal exactly when name and id are. */
  lemma NodeValueEquality(a: NodeValue, b: NodeValue)
    ensures a == b <==> (a.nodeName == b.nodeName && a.nodeId == b.nodeId)
  {
  }

  /** Each accessor gives back what the structure was built with. */
  lemma AccessorsReturnConstructorArguments<E, NP, VP, MC>(
    name: string,
    pubs: seq<PublisherStructValue<E>>,
    subs: seq<SubscriptionStructValue<E>>,
    paths: seq<NP>,
    groups: Option<seq<CallbackGroupStructValue<E>>>,
    passings: Option<seq<VP>>,
    contexts: seq<MC>)
    ensures var n := NodeStructValue(name, pubs, subs, paths, groups, passings, contexts);
      && n.nodeName == name && n.publisher == pubs && n.subscriptionValues == subs
      && n.paths == paths && n.callbackGroups == groups
      && n.variablePassings == passings && n.messageContexts == contexts
  {
  }

  /** A topic occurs in the publish-topic list as often as there are
      publishers on it: duplicates are kept, nothing is added. */
  lemma PublishTopicNamesKeepDuplicates<E, NP, VP, MC>(n: NodeStructValue<E, NP, VP, MC>, t: string)
    ensures multiset(n.PublishTopicNames())[t] == CountImage(PublisherTopic, n.publisher, t)
  {
    ProjectMultiplicity(PublisherTopic, n.publisher, t);
  }

  /** The same for the subscribe-topic list. */
  lemma SubscribeTopicNamesKeepDuplicates<E, NP, VP, MC>(n: NodeStructValue<E, NP, VP, MC>, t: string)
    ensures multiset(n.SubscribeTopicNames())[t] == CountImage(SubscriptionTopic, n.subscriptionValues, t)
  {
    ProjectMultiplicity(SubscriptionTopic, n.subscriptionValues, t);
  }

  /** Extracted but empty callback groups give an empty callback list, not None. */
  lemma CallbacksOfNoGroups<E, NP, VP, MC>(n: NodeStructValue<E, NP, VP, MC>)
    requires n.callbackGroups == Some([])
    ensures n.Callbacks() == Some([]) && n.CallbackNames() == Some([]) && n.CallbackGroupNames() == Some([])
  {
  }

  /** Not extracted callback groups make every callback view None. */
  lemma CallbacksOfUnknownGroups<E, NP, VP, MC>(n: NodeStructValue<E, NP, VP, MC>)
    requires n.callbackGroups.None?
    ensures n.Callbacks() == None && n.CallbackNames() == None && n.CallbackGroupNames() == None
  {
  }

  /** Flattening groups distributes over concatenation of the groups. */
  lemma FlattenGroupsAppend<E>(a: seq<CallbackGroupStructValue<E>>, b: seq<CallbackGroupStructValue<E>>)
    ensures FlattenGroups(a + b) == FlattenGroups(a) + FlattenGroups(b)
  {
    assert Project(GroupCallbacks, a + b) == Project(GroupCallbacks, a) + Project(GroupCallbacks, b);
    FlattenAppend(Project(GroupCallbacks, a), Project(GroupCallbacks, b));
  }

  /** Callback `j` of group `k` stands right after the callbacks of the
      groups before `k`: group order first, then order within the group. */
  lemma CallbacksOrder<E, NP, VP, MC>(n: NodeStructValue<E, NP, VP, MC>, k: nat, j: nat)
    requires n.callbackGroups.Some?
    requires k < |n.callbackGroups.value| && j < |n.callbackGroups.value[k].callbacks|
    ensures TotalCallbackCount(n.callbackGroups.value[..k]) + j < |n.Callbacks().value|
    ensures n.Callbacks().value[TotalCallbackCount(n.callbackGroups.value[..k]) + j]
            == n.callbackGroups.value[k].callbacks[j]
  {
    var groups := n.callbackGroups.value;
    var inner := Project(GroupCallbacks, groups);
    FlattenAt(inner, k, j);
    assert inner[..k] == Project(GroupCallbacks, groups[..k]);
    SumLengthsOfGroups(groups[..k]);
  }

  /** A callback is listed exactly when it belongs to one of the groups. */
  lemma CallbacksMembership<E, NP, VP, MC>(n: NodeStructValue<E, NP, VP, MC>, c: CallbackStructValue<E>)
    requires n.callbackGroups.Some?
    ensures c in n.Callbacks().value
            <==> exists k :: 0 <= k < |n.callbackGroups.value| && c in n.callbackGroups.value[k].callbacks
  {
    var groups := n.callbackGroups.value;
    var inner := Project(GroupCallbacks, groups);
    FlattenMembership(inner, c);
    assert forall k :: 0 <= k < |groups| ==> inner[k] == groups[k].callbacks;
  }

  /** Groups [c1, c2] then [c3] give the callbacks (c1, c2, c3). */
  lemma CallbacksOfTwoGroups<E, NP, VP, MC>(
    n: NodeStructValue<E, NP, VP, MC>,
    c1: CallbackStructValue<E>, c2: CallbackStructValue<E>, c3: CallbackStructValue<E>,
    a: CallbackGroupStructValue<E>, b: CallbackGroupStructValue<E>)
    requires a.callbacks == [c1, c2] && b.callbacks == [c3]
    requires n.callbackGroups == Some([a, b])
    ensures n.Callbacks() == Some([c1, c2, c3])
    ensures n.CallbackNames() == Some([c1.callbackName, c2.callbackName, c3.callbackName])
    ensures n.CallbackGroupNames() == Some([a.callbackGroupName, b.callbackGroupName])
  {
    var inner := [[c1, c2], [c3]];
    assert Project(GroupCallbacks, [a, b]) == inner;
    assert inner[1..] == [[c3]] && [[c3]][1..] == [];
    assert Flatten(inner) == [c1, c2] + ([c3] + []);
    assert [c1, c2] + ([c3] + []) == [c1, c2, c3];
    assert FlattenGroups([a, b]) == [c1, c2, c3];
    assert Project(CallbackName, [c1, c2, c3]) == [c1.callbackName, c2.callbackName, c3.callbackName];
    assert Project(GroupName, [a, b]) == [a.callbackGroupName, b.callbackGroupName];
  }

  /** A publisher lookup succeeds exactly when the topic is among the
      publish topic names. */
  lemma GetPublisherSucceedsIffListed<E, NP, VP, MC>(n: NodeStructValue<E, NP, VP, MC>, t: string)
    ensures n.GetPublisher(t).Success? <==> t in n.PublishTopicNames()
  {
  }

  /** A subscription lookup succeeds exactly when the topic is among the
      subscribe topic names. */
  lemma GetSubscriptionSucceedsIffListed<E, NP, VP, MC>(n: NodeStructValue<E, NP, VP, MC>, t: string)
    ensures n.GetSubscription(t).Success? <==> t in n.SubscribeTopicNames()
  {
  }

  /** With several publishers on the topic, the model returns the first in
      declared order (a modelling choice). */
  lemma GetPublisherFirstMatch<E, NP, VP, MC>(n: NodeStructValue<E, NP, VP, MC>, t: string, i: nat)
    requires i < |n.publisher| && n.publisher[i].topicName == t
    requires forall j :: 0 <= j < i ==> n.publisher[j].topicName != t
    ensures n.GetPublisher(t) == Success(n.publisher[i])
  {
  }

  /** The same choice for subscriptions. */
  lemma GetSubscriptionFirstMatch<E, NP, VP, MC>(n: NodeStructValue<E, NP, VP, MC>, t: string, i: nat)
    requires i < |n.subscriptionValues| && n.subscriptionValues[i].topicName == t
    requires forall j :: 0 <= j < i ==> n.subscriptionValues[j].topicName != t
    ensures n.GetSubscription(t) == Success(n.subscriptionValues[i])
  {
  }

  /** The error message alone identifies the error: its collection and its topic. */
  lemma MessageDeterminesError(e1: ItemNotFoundError, e2: ItemNotFoundError)
    requires e1.Message() == e2.Message()
    ensures e1 == e2
  {
    var m := e1.Message();
    var at := |"Failed to find "|;
    assert e1.kind == e2.kind by {
      assert e1.kind.PublisherInfo? <==> m[at] == "Failed to find publisher"[at];
      assert e2.kind.PublisherInfo? <==> m[at] == "Failed to find publisher"[at];
    }
  }

  /** One publisher on /out, one subscription on /in, groups not extracted. */
  lemma SingleEndpointScenario<E, NP, VP, MC>(x: E, y: E)
    ensures var out := PublisherStructValue("/out", x);
      var n: NodeStructValue<E, NP, VP, MC> :=
        NodeStructValue("nodeA", [out], [SubscriptionStructValue("/in", y)], [], None, None, []);
      && n.GetPublisher("/out") == Success(out)
      && n.GetPublisher("/missing") == Failure(ItemNotFoundError(PublisherInfo, "/missing"))
      && n.Callbacks() == None
      && n.PublishTopicNames() == ["/out"]
      && n.SubscribeTopicNames() == ["/in"]
  {
  }

  /** Two publishers on /x that differ in what else they carry: the lookup
      always yields the first (a modelling choice). */
  lemma DuplicateTopicScenario<E, NP, VP, MC>(x: E, y: E)
    ensures var first := PublisherStructValue("/x", x);
      var n: NodeStructValue<E, NP, VP, MC> :=
        NodeStructValue("nodeA", [first, PublisherStructValue("/x", y)], [], [], None, None, []);
      && n.GetPublisher("/x") == Success(first)
      && n.PublishTopicNames() == ["/x", "/x"]
  {
  }
}
