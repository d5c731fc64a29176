# Node value objects of CARET_analyze, modelled in Dafny

This project models the two read-only value objects that describe one node
of a ROS 2 style publish/subscribe architecture in the CARET analysis tool:

- `NodeValue`, the identity pair of a node (a name and an optional id);
- `NodeStructValue`, the structure of one node: its publishers, its
  subscriptions, its node paths, its callback groups and variable passings
  (both optional: `None` means "not extracted", distinct from an empty
  sequence) and its message contexts, together with the derived views
  (topic-name lists, the flattened callback list, callback and callback-group
  name lists) and the two lookups by topic name, which fail with an
  `ItemNotFoundError` when no entry matches.

Everything in the source is a value fixed at construction, so the model is
functional: datatypes, functions and lemmas.

Files:

- `wrappers.dfy` (module `Wrappers`): `Option` and `Result`.
- `util.dfy` (module `Util`): projection, flattening and first-match search,
  standing for the tool's `Util.flatten`, `Util.find_one` and the tuple
  comprehensions, with their properties (length, order, multiplicity,
  membership, first match).
- `struct_values.dfy` (module `StructValues`): the leaf values. Each keeps the
  name fields the node structure reads and an opaque `other: E` for the rest.
- `node.dfy` (module `Node`): `NodeValue`, `ItemNotFoundError` and
  `NodeStructValue` with its views and lookups.
- `node_lemmas.dfy` (module `NodeLemmas`): properties relating the views,
  the lookups and the stored fields, and the two example scenarios.

The plain accessors of `NodeStructValue` (`node_name`, `publisher`,
`subscription_values`, `callback_groups`, `paths`, `variable_passings`,
`message_contexts`) are the datatype's destructors. Python's field-wise
value equality is Dafny's structural datatype equality.

Two points where the model goes beyond what node.py shows:
- node.py expects one match per topic. What `Util.find_one` does with several
  is not visible, so the model returns the first (see `## Left out`).
- The source's `ItemNotFoundError` carries only its message text. The model
  keeps the searched collection as a field `kind` and rebuilds the text in
  `Message`.

## Model

| member | source | states |
|---|---|---|
| `NodeLemmas.NodeValueEquality` | caret_analyze/value_objects/node.py:30-45 | two node identities are equal exactly when both name and id are equal |
| `NodeLemmas.AccessorsReturnConstructorArguments` | caret_analyze/value_objects/node.py:51-75 | every accessor of a built node structure returns the argument it was built with |
| `Node.NodeStructValue.PublishTopicNames` | caret_analyze/value_objects/node.py:77-79 | one topic name per publisher, same length, element i is publisher i's topic |
| `Node.NodeStructValue.SubscribeTopicNames` | caret_analyze/value_objects/node.py:81-83 | one topic name per subscription, same length, element i is subscription i's topic |
| `NodeLemmas.PublishTopicNamesKeepDuplicates` | caret_analyze/value_objects/node.py:77-79 | a topic occurs in the publish list exactly as many times as there are publishers on it |
| `NodeLemmas.SubscribeTopicNamesKeepDuplicates` | caret_analyze/value_objects/node.py:81-83 | a topic occurs in the subscribe list exactly as many times as there are subscriptions on it |
| `Util.Project` | caret_analyze/value_objects/node.py:79 | a projection has the input's length, and element i is the image of input element i |
| `Util.ProjectMultiplicity` | caret_analyze/value_objects/node.py:79 | a projection keeps multiplicities: y occurs as often as there are inputs mapped to y |
| `Node.NodeStructValue.Callbacks` | caret_analyze/value_objects/node.py:89-93 | None exactly when the groups are None; otherwise as many callbacks as the groups hold in total |
| `Util.Flatten` | caret_analyze/value_objects/node.py:93 | the flattening is as long as the sum of the inner lengths |
| `Util.FlattenAppend` | caret_analyze/value_objects/node.py:93 | flattening a concatenation is the concatenation of the flattenings |
| `Util.FlattenAt` | caret_analyze/value_objects/node.py:93 | element j of inner sequence k is at offset (lengths before k) + j of the flattening |
| `Util.FlattenMembership` | caret_analyze/value_objects/node.py:93 | an element is in the flattening exactly when it is in some inner sequence |
| `Node.FlattenGroups` | caret_analyze/value_objects/node.py:93 | flattening the groups yields as many callbacks as the groups hold in total |
| `Node.SumLengthsOfGroups` | caret_analyze/value_objects/node.py:93 | the lengths of the groups' callback lists add up to the total callback count |
| `NodeLemmas.FlattenGroupsAppend` | caret_analyze/value_objects/node.py:93 | flattening groups a and then b gives a's callbacks followed by b's |
| `NodeLemmas.CallbacksOrder` | caret_analyze/value_objects/node.py:93 | callback j of group k is at index (callbacks of groups before k) + j: group order, then order within the group |
| `NodeLemmas.CallbacksMembership` | caret_analyze/value_objects/node.py:93 | a callback is listed exactly when it belongs to one of the groups |
| `NodeLemmas.CallbacksOfNoGroups` | caret_analyze/value_objects/node.py:90-109 | an empty group sequence gives empty callback, callback-name and group-name lists, not None |
| `NodeLemmas.CallbacksOfUnknownGroups` | caret_analyze/value_objects/node.py:90-109 | groups not extracted make callbacks, callback names and group names all None |
| `NodeLemmas.CallbacksOfTwoGroups` | caret_analyze/value_objects/node.py:93-109 | groups [c1, c2] then [c3] give callbacks (c1, c2, c3), their names in that order, and the two group names |
| `Node.NodeStructValue.CallbackNames` | caret_analyze/value_objects/node.py:95-99 | None exactly when the callbacks (and the groups) are None; otherwise same length as the callbacks, element i is callback i's name |
| `Node.NodeStructValue.CallbackGroupNames` | caret_analyze/value_objects/node.py:101-109 | None exactly when the groups are None; otherwise same length as the groups, element i is group i's name |
| `Util.FindFirst` | caret_analyze/value_objects/node.py:129-131 | None exactly when no element satisfies the predicate; otherwise an index of a satisfying element with none before it |
| `Node.NodeStructValue.GetSubscription` | caret_analyze/value_objects/node.py:123-135 | fails exactly when no subscription has the topic, with an error naming the subscription collection and the topic; a success is a member of the subscriptions on that topic; a unique match is returned |
| `Node.NodeStructValue.GetPublisher` | caret_analyze/value_objects/node.py:137-148 | fails exactly when no publisher has the topic, with an error naming the publisher collection and the topic; a success is a member of the publishers on that topic; a unique match is returned |
| `NodeLemmas.GetSubscriptionSucceedsIffListed` | caret_analyze/value_objects/node.py:81-83 | a subscription lookup succeeds exactly when the topic is in the subscribe topic names |
| `NodeLemmas.GetPublisherSucceedsIffListed` | caret_analyze/value_objects/node.py:77-79 | a publisher lookup succeeds exactly when the topic is in the publish topic names |
| `NodeLemmas.GetSubscriptionFirstMatch` | caret_analyze/value_objects/node.py:128-131 | with several subscriptions on the topic, the model returns the first in declared order |
| `NodeLemmas.GetPublisherFirstMatch` | caret_analyze/value_objects/node.py:141-144 | with several publishers on the topic, the model returns the first in declared order |
| `Node.ItemNotFoundError.Message` | caret_analyze/value_objects/node.py:133-134 | the error text starts with "Failed to find publisher" or "Failed to find subscription" according to the collection searched, and ends with the requested topic name |
| `NodeLemmas.MessageDeterminesError` | caret_analyze/value_objects/node.py:146-147 | two errors with the same text are the same error: same collection, same topic |
| `NodeLemmas.SingleEndpointScenario` | caret_analyze/value_objects/node.py:69-148 | node with one publisher on /out: the lookup of /out returns it, /missing fails with NotFound naming /missing, callbacks are None, the topic list is ["/out"] |
| `NodeLemmas.DuplicateTopicScenario` | caret_analyze/value_objects/node.py:77-79 | two publishers on /x: the topic list keeps both, and the lookup always gives the first |

## Left out

- The internals of `Util.find_one` and `Util.flatten` are not visible. `Util.FindFirst`
  and `Util.Flatten` stand in for them: first-match search, and plain concatenation
  in order.
- `GetPublisher`, `GetSubscription`: what `find_one` does when several entries share
  the topic (first match or an error) is not visible. The model returns the first
  match. This is a modelling choice, not a proved property of the source (see the
  two FirstMatch lemmas).
- The `ValueObject` base class (hashing, `__eq__`, `__str__`) is not part of this model;
  Dafny's structural equality stands for it.
- The internals of node paths, variable passings, message contexts and the leaf
  values beyond their name fields are not part of this model. They are type parameters,
  or the opaque `other` payload, passed through unchanged.
- The `ItemNotFoundError` class hierarchy is left out, and so is the re-raise of the
  inner error: the error is a datatype value (collection kind and topic name)
  with its message text.
- Immutability after construction, and repeated reads giving equal values, need no
  lemma: a Dafny datatype value cannot change and a function is deterministic.
