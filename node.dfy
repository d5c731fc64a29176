/** The node value objects of the architecture model: the identity pair
    `NodeValue` and the read-only structure `NodeStructValue` of one node,
    with its derived views and its two topic lookups. Everything is a value:
    the structure is fixed when it is built, and every view is recomputed
    from the stored fields. */
module Node {
  import opened Wrappers
  import opened Util
  import opened StructValues

  /** Architecture-level key of a node: its name and an optional
      disambiguating id. Equality is field-wise. */
  datatype NodeValue = NodeValue(nodeName: string, nodeId: Option<string>)

  /** The collection a failed lookup searched. */
  datatype InfoKind = PublisherInfo | SubscriptionInfo

  /** Raised by the lookups when no entry carries the requested topic. */
  datatype ItemNotFoundError = ItemNotFoundError(kind: InfoKind, topicName: string)
  {
    /** The text the error is raised with: it names the collection and ends
        with the requested topic name. */
    function Message(): (m: string)
      ensures |m| > |topicName| && m[|m| - |topicName|..] == topicName
      ensures kind.PublisherInfo? ==> "Failed to find publisher" <= m
      ensures kind.SubscriptionInfo? ==> "Failed to find subscription" <= m
    {
      (match kind
       case PublisherInfo => "Failed to find publisher info. "
       case SubscriptionInfo => "Failed to find subscription info. ")
      + "topic_name: " + topicName
    }
  }

  function PublisherTopic<E>(p: PublisherStructValue<E>): string { p.topicName }

  function SubscriptionTopic<E>(s: SubscriptionStructValue<E>): string { s.topicName }

  function CallbackName<E>(c: CallbackStructValue<E>): string { c.callbackName }

  function GroupName<E>(g: CallbackGroupStructValue<E>): string { g.callbackGroupName }

  function GroupCallbacks<E>(g: CallbackGroupStructValue<E>): seq<CallbackStructValue<E>> { g.callbacks }

  /** Number of callbacks over all groups. */
  function TotalCallbackCount<E>(groups: seq<CallbackGroupStructValue<E>>): nat
  {
    if groups == [] then 0 else |groups[0].callbacks| + TotalCallbackCount(groups[1..])
  }

  lemma {:induction false} SumLengthsOfGroups<E>(groups: seq<CallbackGroupStructValue<E>>)
    ensures SumLengths(Project(GroupCallbacks, groups)) == TotalCallbackCount(groups)
  {
    if groups != [] {
      SumLengthsOfGroups(groups[1..]);
      assert Project(GroupCallbacks, groups)[1..] == Project(GroupCallbacks, groups[1..]);
    }
  }

  /** The callbacks of all groups, group by group, each group in its own order. */
  function FlattenGroups<E>(groups: seq<CallbackGroupStructValue<E>>): (r: seq<CallbackStructValue<E>>)
    ensures |r| == TotalCallbackCount(groups)
  {
    SumLengthsOfGroups(groups);
    Flatten(Project(GroupCallbacks, groups))
  }

  /** The structure of one node. The type parameters stand for data the
      structure only stores: `E` for what the leaf values carry beyond their
      names, `NP` for node paths, `VP` for variable passings and `MC` for
      message contexts. The destructors are the plain accessors.
      `callbackGroups` and `variablePassings` are `None` when that
      information was not extracted, which is not the same as `Some([])`. */
  datatype NodeStructValue<E, NP, VP, MC> = NodeStructValue(
    nodeName: string,
    publisher: seq<PublisherStructValue<E>>,
    subscriptionValues: seq<SubscriptionStructValue<E>>,
    paths: seq<NP>,
    callbackGroups: Option<seq<CallbackGroupStructValue<E>>>,
    variablePassings: Option<seq<VP>>,
    messageContexts: seq<MC>)
  {
    /** Topic of every publisher, in order, duplicates kept. */
    function PublishTopicNames(): (r: seq<string>)
      ensures |r| == |publisher|
      ensures forall i :: 0 <= i < |publisher| ==> r[i] == publisher[i].topicName
    {
      Project(PublisherTopic, publisher)
    }

    /** Topic of every subscription, in order, duplicates kept. */
    function SubscribeTopicNames(): (r: seq<string>)
      ensures |r| == |subscriptionValues|
      ensures forall i :: 0 <= i < |subscriptionValues| ==> r[i] == subscriptionValues[i].topicName
    {
      Project(SubscriptionTopic, subscriptionValues)
    }

    /** All callbacks of all groups, or None when the groups were not extracted. */
    function Callbacks(): (r: Option<seq<CallbackStructValue<E>>>)
      ensures r.None? <==> callbackGroups.None?
      ensures r.Some? ==> |r.value| == TotalCallbackCount(callbackGroups.value)
    {
      match callbackGroups
      case None => None
      case Some(groups) => Some(FlattenGroups(groups))
    }

    /** Name of every callback, or None when the callbacks are None. */
    function CallbackNames(): (r: Option<seq<string>>)
      ensures r.None? <==> Callbacks().None?
      ensures r.None? <==> callbackGroups.None?
      ensures r.Some? ==> |r.value| == |Callbacks().value|
      ensures r.Some? ==> forall i :: 0 <= i < |r.value| ==> r.value[i] == Callbacks().value[i].callbackName
    {
      match Callbacks()
      case None => None
      case Some(cbs) => Some(Project(CallbackName, cbs))
    }

    /** Name of every callback group, or None when the groups were not extracted. */
    function CallbackGroupNames(): (r: Option<seq<string>>)
      ensures r.None? <==> callbackGroups.None?
      ensures r.Some? ==> |r.value| == |callbackGroups.value|
      ensures r.Some? ==> forall i :: 0 <= i < |r.value| ==> r.value[i] == callbackGroups.value[i].callbackGroupName
    {
      match callbackGroups
      case None => None
      case Some(groups) => Some(Project(GroupName, groups))
    }

    /** The subscription on `topicName`; fails when there is none. */
    function GetSubscription(topicName: string): (r: Result<SubscriptionStructValue<E>, ItemNotFoundError>)
      ensures r.Failure? <==> forall i :: 0 <= i < |subscriptionValues| ==> subscriptionValues[i].topicName != topicName
      ensures r.Failure? ==> r.error == ItemNotFoundError(SubscriptionInfo, topicName)
      ensures r.Success? ==> r.value in subscriptionValues && r.value.topicName == topicName
      ensures forall i :: 0 <= i < |subscriptionValues| && subscriptionValues[i].topicName == topicName
                && (forall j :: 0 <= j < |subscriptionValues| && subscriptionValues[j].topicName == topicName ==> j == i)
                ==> r == Success(subscriptionValues[i])
    {
      match FindFirst((s: SubscriptionStructValue<E>) => s.topicName == topicName, subscriptionValues)
      case None => Failure(ItemNotFoundError(SubscriptionInfo, topicName))
      case Some(i) => Success(subscriptionValues[i])
    }

    /** The publisher on `topicName`; fails when there is none. */
    function GetPublisher(topicName: string): (r: Result<PublisherStructValue<E>, ItemNotFoundError>)
      ensures r.Failure? <==> forall i :: 0 <= i < |publisher| ==> publisher[i].topicName != topicName
      ensures r.Failure? ==> r.error == ItemNotFoundError(PublisherInfo, topicName)
      ensures r.Success? ==> r.value in publisher && r.value.topicName == topicName
      ensures forall i :: 0 <= i < |publisher| && publisher[i].topicName == topicName
                && (forall j :: 0 <= j < |publisher| && publisher[j].topicName == topicName ==> j == i)
                ==> r == Success(publisher[i])
    {
      match FindFirst((p: PublisherStructValue<E>) => p.topicName == topicName, publisher)
      case None => Failure(ItemNotFoundError(PublisherInfo, topicName))
      case Some(i) => Success(publisher[i])
    }
  }
}
