# Cronitor client configuration model, in Dafny

This project models the in-memory configuration objects of the Cronitor
Python client (`cronitor/models.py`) and proves what they do:

- `Rule` (module `Rules`): an alert rule. Its constructor builds a mapping
  from `rule_type`, `duration` and `time_unit`. It adds
  `hours_to_followup_alert` only when a follow-up is given, and nests the
  whole mapping under the rule's `id` when the service assigned one.
  Line 36, `dict(zip(fields, [self.type, self.dur, self.unit, self.followup]))`,
  is modelled literally, including `zip` dropping the fourth value when
  only three names are listed. The `values` list built at lines 29 and 33
  is never used (dead code), so the model has no counterpart for it. An id
  that cannot be a dict key (a list or a dict) makes the constructor raise
  `TypeError` at line 38.
- `Notifications` (module `Channels`): a class with five destination lists
  (`emails`, `slack`, `pagerduty`, `phones`, `webhooks`) updated in place.
  `addto` takes a set union and `removefrom` a set difference, both through
  one loop over the channel list (`_update`). `replace` overwrites. A
  channel that is omitted, or given an empty list, is left alone. Iteration
  and `str` project all five channels in a fixed order. `fromjson` is
  modelled on an already decoded payload.
- `Monitor` (module `Monitors`): a record filled by its constructor.
  `add_rule` and `add_notif` do nothing.
- Module `Values` holds the untyped Python value (`Null` is `None`, dicts
  keep insertion order) and the library pieces the model uses: `zip`,
  `dict.get`, and lookup in a dict.

Notes on the code as written:

- There is no required-field validation: any value, `None` included, is
  accepted for `name`, `rule_type`, `duration` and `time_unit`.
- There is no single-channel `Notification` class and no `Monitor`
  serialiser.
- `add_rule` and `add_notif` have empty bodies.
- `Monitor.notifications` starts as the empty dict `{}`.
- Feeding the output of `str(n)` back to `fromjson` does not round-trip.
  The output's only top-level key is `"notifications"`, which is not a
  parameter of `replace` or `addto`, so the call raises `TypeError`
  (`Channels.SerializedFormRejected`).

## Model

| member | source | states |
|---|---|---|
| `Values.Zip` | cronitor/models.py:36 | `zip` has the length of the shorter input, and its i-th pair holds the i-th elements of both inputs |
| `Rules.NewRule` | cronitor/models.py:8-38 | the constructor keeps the three required arguments and the follow-up, takes the id from the `id` keyword argument or `None` and ignores every other keyword; it raises TypeError exactly when the id is a list or a dict, which cannot be a dict key |
| `Rules.Obj` | cronitor/models.py:28-38 | for a rule the constructor can build (its id can be a dict key), the rule's mapping is a dict with distinct keys: the id alone when there is one, otherwise three keys, or four with a follow-up |
| `Rules.Items` | cronitor/models.py:43-45 | iteration yields, for a rule with an id, the single pair of the id and the flat mapping; otherwise pairs whose keys are the listed field names in order |
| `Rules.FlatRuleShape` | cronitor/models.py:28-36 | a rule without an id maps exactly `rule_type`, `duration` and `time_unit`, in that order, to its arguments; `hours_to_followup_alert` is a key if and only if the follow-up is not `None`, and then holds that value |
| `Rules.KeyedRuleShape` | cronitor/models.py:37-38 | a rule with an id has exactly one key, the id, holding the flat mapping of the same rule without an id |
| `Channels.Index` | cronitor/models.py:55 | the channel list names every channel exactly once |
| `Channels.ChannelOf` | cronitor/models.py:65 | a keyword names a channel exactly when it is one of the five channel names |
| `Channels.ListOf` | cronitor/models.py:75-77 | `list(s)` of a set holds every member of `s` exactly once, and nothing else |
| `Channels.KwargsOf` | cronitor/models.py:63 | passing a decoded payload as keyword arguments succeeds if and only if every key is a channel name, and then each channel parameter is the payload's list or the empty default |
| `Channels.FromJsonCall` | cronitor/models.py:57-63 | as written, update mode always fails with an AttributeError for `update`; replace mode calls `replace` with the payload exactly when the payload's keys are all channel names |
| `Channels.AddToKwargsOf` | cronitor/models.py:65-91 | passing a decoded payload to `addto` succeeds if and only if every key is a channel name or `remove`; each channel parameter is the payload's list or the empty default, and the merge removes exactly when `remove` holds a non-empty list |
| `Channels.FromJsonCallIntended` | cronitor/models.py:57-63 | with the update branch calling `addto(**dct)`, update mode succeeds exactly when `addto` accepts the payload's keys (`remove` included) and then calls `_update` with its channels and `remove` flag; replace mode is unchanged from the code as written |
| `Channels.UpdateModeFails` | cronitor/models.py:60-61 | the payload `{"emails": ["ops@example.com"]}` in update mode fails as written, while the intended version merges it into `emails` by union |
| `Channels.AddToIdempotent` | cronitor/models.py:77 | merging the same values a second time leaves the membership the first merge produced |
| `Channels.RemoveFromLeavesNoGiven` | cronitor/models.py:75 | after a removal no given value remains in the channel, and every old value that was not given is still there |
| `Channels.RemoveUndoesAddTo` | cronitor/models.py:93-97 | removing the values just added restores the old membership, when those values were not already present |
| `Channels.SerializedFormRejected` | cronitor/models.py:113-117 | the serialised form's only top-level key is "notifications", and any decoded payload holding that key makes `fromjson` fail, as written and as corrected, in both modes |
| `Channels.SerializedHoldsEveryChannel` | cronitor/models.py:113-117 | in the serialised form each channel name holds that channel's current list |
| `Channels.Notifications.constructor` | cronitor/models.py:48-55 | a new object has five empty channels, and iterating over it gives the five names in channel order, each with an empty list |
| `Channels.Notifications.SetChannel` | cronitor/models.py:78 | writing one channel by name changes that channel only |
| `Channels.Notifications.Update` | cronitor/models.py:65-78 | each channel given a non-empty list becomes a list without repetitions holding the union (or, when removing, the difference) of the old and given members; every other channel keeps its exact list |
| `Channels.Notifications.AddTo` | cronitor/models.py:80-91 | each channel given a non-empty list has exactly the members old ∪ given, each once; omitted or empty channels are unchanged |
| `Channels.Notifications.RemoveFrom` | cronitor/models.py:93-97 | each channel given a non-empty list has exactly the members old \ given, each once; omitted or empty channels are unchanged |
| `Channels.Notifications.Replace` | cronitor/models.py:99-111 | each channel given a non-empty list becomes exactly that list, with its order and repetitions; omitted or empty channels keep their old list |
| `Channels.Notifications.FromJson` | cronitor/models.py:57-63 | as written: update mode raises AttributeError and changes nothing; a payload key that names no channel raises TypeError and changes nothing; otherwise the payload replaces the channels it gives non-empty lists for |
| `Channels.Notifications.FromJsonIntended` | cronitor/models.py:57-63 | corrected: in update mode a key that is neither a channel nor `remove` raises TypeError and changes nothing; otherwise every channel of the payload is merged by set union, or by set difference when the payload holds a non-empty `remove` list, as `addto(**dct)` does; replace mode is as written |
| `Channels.Notifications.Items` | cronitor/models.py:119-121 | iteration yields exactly five pairs, in the order emails, slack, pagerduty, phones, webhooks, each with that channel's list |
| `Channels.Notifications.Serialized` | cronitor/models.py:113-117 | the serialised form has the single key "notifications", holding all five channel names in channel order |
| `Monitors.Monitor.constructor` | cronitor/models.py:124-141 | a new monitor has the given name, the `note` argument or the empty string, no rules and an empty notifications dict; each read-only field is its keyword argument or `None` |
| `Monitors.Monitor.AddRule` | cronitor/models.py:143-144 | adding a rule changes nothing |
| `Monitors.Monitor.AddNotif` | cronitor/models.py:146-147 | adding a notification changes nothing |

## Findings

| source | as written | input that shows it | evidently intended | confidence | as-written member | corrected member |
|---|---|---|---|---|---|---|
| cronitor/models.py:60-61 | update mode calls `self.update`, which the class does not define, so it always raises AttributeError | `fromjson('{"emails": ["ops@example.com"]}', update=True)` | merge the payload with `addto(**dct)`. The docstring of `removefrom` calls the union merge the `update` method. | high, not executed | `Channels.UpdateModeFails` | `Channels.Notifications.FromJsonIntended` |

## Left out

- JSON text is not modelled. `json.dumps` in `Rule.__str__` and `Notifications.__str__` is represented by the `Value` it would encode (`Rules.Obj`, `Channels.Notifications.Serialized`). `json.loads` in `fromjson` is represented by a payload that is already decoded into a map from names to string lists. Malformed JSON and payload values that are not lists of strings are not modelled.
- Channels.Notifications.AddTo, Channels.Notifications.RemoveFrom, Channels.Notifications.Replace: their keyword arguments are modelled as a map from channel to list. The TypeError that Python raises for an unknown keyword is therefore not modelled here, and neither is `remove=True` passed through `addto`'s keywords. The decoded-payload path through `fromjson` does model the TypeError.
- Channels.Notifications.Replace: stores a copy of the given list. In Python the channel aliases the caller's list, and later changes to that list would show through.
- The truthiness test `if value:` is modelled as "the list is not empty". Non-list values are not modelled.
- The order of the list that `list(set(...))` produces is not fixed by the model, as Python does not fix it either. Only membership and the absence of repetitions are stated.
- `cronitor/metadata.py` and `cronitor/__init__.py` are not part of this model. They hold package constants only.
- Any communication with the monitoring service is not part of this model.
