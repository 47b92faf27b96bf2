/** The notification destinations of a monitor: five named channels, each a
    list of destination strings, updated in place by overwriting, by set
    union or by set difference. */
module Channels {
  import opened Values

  datatype Channel = Emails | Slack | Pagerduty | Phones | Webhooks

  /** The channel list every operation walks, in this order. */
  const Types: seq<Channel> := [Emails, Slack, Pagerduty, Phones, Webhooks]

  /** The attribute and keyword name of a channel. */
  function Name(c: Channel): string
  {
    match c
    case Emails => "emails"
    case Slack => "slack"
    case Pagerduty => "pagerduty"
    case Phones => "phones"
    case Webhooks => "webhooks"
  }

  /** Where a channel sits in `Types`: every channel is listed exactly once. */
  function Index(c: Channel): (i: nat)
    ensures i < |Types| && Types[i] == c
    ensures forall j :: 0 <= j < |Types| && Types[j] == c ==> j == i
  {
    match c
    case Emails => 0
    case Slack => 1
    case Pagerduty => 2
    case Phones => 3
    case Webhooks => 4
  }

  /** The channel a keyword names, if it names one. */
  function ChannelOf(name: string): (r: Option<Channel>)
    ensures r.Some? ==> Name(r.value) == name
    ensures r.None? ==> forall c: Channel :: Name(c) != name
  {
    if name == "emails" then Some(Emails)
    else if name == "slack" then Some(Slack)
    else if name == "pagerduty" then Some(Pagerduty)
    else if name == "phones" then Some(Phones)
    else if name == "webhooks" then Some(Webhooks)
    else None
  }

  /** Keyword arguments naming channels. A channel absent from the map was
      omitted; its parameter then takes the default, the empty list. */
  type Kwargs = map<Channel, seq<string>>

  /** The value a channel parameter has inside the call. */
  function Given(args: Kwargs, c: Channel): seq<string>
  {
    if c in args then args[c] else []
  }

  function Members(l: seq<string>): set<string>
  {
    set x | x in l
  }

  predicate NoDup(l: seq<string>)
  {
    forall i, j :: 0 <= i < j < |l| ==> l[i] != l[j]
  }

  /** What one channel's list may be after a merge with `value`: unchanged
      when `value` is empty, otherwise a list without repetitions whose
      members are the old members together with (or without) those of
      `value`. The order of the new list is not determined. */
  predicate MergeStep(before: seq<string>, value: seq<string>, after: seq<string>, remove: bool)
  {
    if value == [] then after == before
    else NoDup(after)
         && Members(after) == if remove then Members(before) - Members(value)
                              else Members(before) + Members(value)
  }

  /** `list(s)` for a set `s`: the members of `s`, each once, in an order
      the model leaves open. */
  method ListOf(s: set<string>) returns (l: seq<string>)
    ensures NoDup(l)
    ensures Members(l) == s
  {
    l := [];
    var rest := s;
    while rest != {}
      invariant NoDup(l)
      invariant Members(l) !! rest
      invariant Members(l) + rest == s
      decreases rest
    {
      var x :| x in rest;
      l := l + [x];
      rest := rest - {x};
    }
  }

  /** Passing a decoded JSON object as `**kwargs` to a method whose
      parameters are the five channel names. */
  function KwargsOf(dct: map<string, seq<string>>): (r: Result<Kwargs, PyError>)
    ensures r.Ok? <==> forall k :: k in dct ==> ChannelOf(k).Some?
    ensures r.Err? ==> r.error == TypeError
    ensures r.Ok? ==> forall c :: Given(r.value, c) == if Name(c) in dct then dct[Name(c)] else []
  {
    if forall k :: k in dct ==> ChannelOf(k).Some? then
      Ok(map c | c in Types && Name(c) in dct :: dct[Name(c)])
    else
      Err(TypeError)
  }

  /** Passing a decoded JSON object as `**kwargs` to `addto`, which hands
      them on to `_update`: its parameters are the five channel names and
      `remove`, and a non-empty list under `remove` turns the merge into a
      removal. */
  function AddToKwargsOf(dct: map<string, seq<string>>): (r: Result<(Kwargs, bool), PyError>)
    ensures r.Ok? <==> forall k :: k in dct ==> k == "remove" || ChannelOf(k).Some?
    ensures r.Err? ==> r.error == TypeError
    ensures r.Ok? ==> (r.value.1 <==> "remove" in dct && dct["remove"] != [])
    ensures r.Ok? ==> forall c :: Given(r.value.0, c) == if Name(c) in dct then dct[Name(c)] else []
  {
    if forall k :: k in dct ==> k == "remove" || ChannelOf(k).Some? then
      Ok((map c | c in Types && Name(c) in dct :: dct[Name(c)], "remove" in dct && dct["remove"] != []))
    else
      Err(TypeError)
  }

  /** The method `fromjson` ends up calling: `replace`, or `_update` through
      `addto` with its `remove` flag. */
  datatype Call = ReplaceCall(args: Kwargs) | AddToCall(args: Kwargs, remove: bool)

  /** `fromjson` as written: in update mode it calls `self.update`, which
      the class does not define, so it fails before looking at the payload;
      otherwise it calls `replace` with the payload as keyword arguments. */
  function FromJsonCall(dct: map<string, seq<string>>, update: bool): (r: Result<Call, PyError>)
    ensures update ==> r == Err(AttributeError("update"))
    ensures !update ==> (r.Ok? <==> KwargsOf(dct).Ok?)
    ensures !update && r.Err? ==> r.error == TypeError
    ensures !update && r.Ok? ==> r.value == ReplaceCall(KwargsOf(dct).value)
  {
    if update then Err(AttributeError("update"))
    else
      match KwargsOf(dct)
      case Ok(args) => Ok(ReplaceCall(args))
      case Err(e) => Err(e)
  }

  /** `fromjson` with the update branch calling `addto(**dct)`, the merge
      that the rest of the class calls "update". Replace mode is as written. */
  function FromJsonCallIntended(dct: map<string, seq<string>>, update: bool): (r: Result<Call, PyError>)
    ensures update ==> (r.Ok? <==> AddToKwargsOf(dct).Ok?)
    ensures update && r.Err? ==> r.error == TypeError
    ensures update && r.Ok? ==> r.value == AddToCall(AddToKwargsOf(dct).value.0, AddToKwargsOf(dct).value.1)
    ensures !update ==> r == FromJsonCall(dct, update)
  {
    if update then
      match AddToKwargsOf(dct)
      case Ok((args, remove)) => Ok(AddToCall(args, remove))
      case Err(e) => Err(e)
    else
      FromJsonCall(dct, false)
  }

  /** Update mode of `fromjson` as written never merges anything, even for a
      well-formed payload that the intended version merges. */
  lemma UpdateModeFails()
    ensures var dct := map["emails" := ["ops@example.com"]];
            FromJsonCall(dct, true).Err?
            && FromJsonCallIntended(dct, true) == Ok(AddToCall(map[Emails := ["ops@example.com"]], false))
  {
    var dct := map["emails" := ["ops@example.com"]];
    var args := AddToKwargsOf(dct).value.0;
    assert Given(args, Emails) == ["ops@example.com"];
    forall c | c != Emails ensures Given(args, c) == [] {
      assert Name(c) !in dct;
    }
    assert args == map[Emails := ["ops@example.com"]];
  }

  /** Merging the same values twice gives the same members as merging once. */
  lemma AddToIdempotent(before: seq<string>, value: seq<string>, once: seq<string>, twice: seq<string>)
    requires MergeStep(before, value, once, false)
    requires MergeStep(once, value, twice, false)
    ensures Members(twice) == Members(once)
    ensures value != [] ==> NoDup(twice)
  {
  }

  /** After a removal no given value is left, and everything else stays. */
  lemma RemoveFromLeavesNoGiven(before: seq<string>, value: seq<string>, after: seq<string>)
    requires MergeStep(before, value, after, true)
    ensures forall x :: x in value ==> x !in after
    ensures forall x :: x in before && x !in value ==> x in after
  {
    forall x | x in value ensures x !in after {
      assert x in Members(value);
    }
    forall x | x in before && x !in value ensures x in after {
      assert x in Members(before) - Members(value);
      assert x in Members(after);
    }
  }

  /** Removing the values just added restores the old members, when they
      were new to the list. */
  lemma RemoveUndoesAddTo(before: seq<string>, value: seq<string>, added: seq<string>, removed: seq<string>)
    requires Members(before) !! Members(value)
    requires MergeStep(before, value, added, false)
    requires MergeStep(added, value, removed, true)
    ensures Members(removed) == Members(before)
  {
  }

  class Notifications {
    var emails: seq<string>
    var slack: seq<string>
    var pagerduty: seq<string>
    var phones: seq<string>
    var webhooks: seq<string>

    /** `getattr(self, name)` for a channel name. */
    function Get(c: Channel): seq<string>
      reads this
    {
      match c
      case Emails => emails
      case Slack => slack
      case Pagerduty => pagerduty
      case Phones => phones
      case Webhooks => webhooks
    }

    constructor ()
      ensures forall c :: Get(c) == []
      ensures Items() == [("emails", []), ("slack", []), ("pagerduty", []), ("phones", []), ("webhooks", [])]
    {
      emails, slack, pagerduty, phones, webhooks := [], [], [], [], [];
    }

    /** `setattr(self, name, l)` for a channel name. */
    method SetChannel(c: Channel, l: seq<string>)
      modifies this
      ensures Get(c) == l
      ensures forall d :: d != c ==> Get(d) == old(Get(d))
    {
      match c
      case Emails => emails := l;
      case Slack => slack := l;
      case Pagerduty => pagerduty := l;
      case Phones => phones := l;
      case Webhooks => webhooks := l;
    }

    /** `_update`: each channel given a non-empty list becomes the union (or,
        with `remove`, the difference) of its members and the given ones;
        every other channel keeps its list. */
    method Update(args: Kwargs, remove: bool)
      modifies this
      ensures forall c :: MergeStep(old(Get(c)), Given(args, c), Get(c), remove)
    {
      for i := 0 to |Types|
        invariant forall c :: Index(c) < i ==> MergeStep(old(Get(c)), Given(args, c), Get(c), remove)
        invariant forall c :: i <= Index(c) ==> Get(c) == old(Get(c))
      {
        var c := Types[i];
        var current := Get(c);
        var value := Given(args, c);
        if value != [] {
          var updated;
          if remove {
            updated := ListOf(Members(current) - Members(value));
          } else {
            updated := ListOf(Members(current) + Members(value));
          }
          SetChannel(c, updated);
        }
      }
    }

    /** `addto`: set union on every channel given a non-empty list. */
    method AddTo(args: Kwargs)
      modifies this
      ensures forall c :: Given(args, c) != [] ==>
                NoDup(Get(c)) && Members(Get(c)) == Members(old(Get(c))) + Members(Given(args, c))
      ensures forall c :: Given(args, c) == [] ==> Get(c) == old(Get(c))
    {
      Update(args, false);
    }

    /** `removefrom`: set difference on every channel given a non-empty list. */
    method RemoveFrom(args: Kwargs)
      modifies this
      ensures forall c :: Given(args, c) != [] ==>
                NoDup(Get(c)) && Members(Get(c)) == Members(old(Get(c))) - Members(Given(args, c))
      ensures forall c :: Given(args, c) == [] ==> Get(c) == old(Get(c))
    {
      Update(args, true);
    }

    /** `replace`: every channel given a non-empty list becomes exactly that
        list, in its order and with its repetitions; the others are kept. */
    method Replace(args: Kwargs)
      modifies this
      ensures forall c :: Get(c) == if Given(args, c) != [] then Given(args, c) else old(Get(c))
    {
      var e, s, p, ph, w := Given(args, Emails), Given(args, Slack), Given(args, Pagerduty),
                            Given(args, Phones), Given(args, Webhooks);
      if e != [] { emails := e; }
      if s != [] { slack := s; }
      if p != [] { pagerduty := p; }
      if ph != [] { phones := ph; }
      if w != [] { webhooks := w; }
    }

    /** `fromjson` on an already decoded payload, as written: update mode
        fails with an AttributeError; otherwise the payload replaces the
        channels it names, or, when a key names no channel, nothing changes
        and a TypeError is raised. */
    method FromJson(dct: map<string, seq<string>>, update: bool) returns (err: Option<PyError>)
      modifies this
      ensures update ==> err == Some(AttributeError("update")) && unchanged(this)
      ensures !update && KwargsOf(dct).Err? ==> err == Some(TypeError) && unchanged(this)
      ensures !update && KwargsOf(dct).Ok? ==>
                err == None &&
                forall c :: Get(c) == if Name(c) in dct && dct[Name(c)] != [] then dct[Name(c)] else old(Get(c))
    {
      match FromJsonCall(dct, update)
      case Err(e) =>
        err := Some(e);
      case Ok(call) =>
        Replace(call.args);
        err := None;
    }

    /** `fromjson` with update mode merging through `addto(**dct)`: a key
        that is neither a channel nor `remove` raises a TypeError and changes
        nothing; otherwise every channel is merged by union, or by
        difference when the payload has a non-empty `remove` list. Replace
        mode is as written. */
    method FromJsonIntended(dct: map<string, seq<string>>, update: bool) returns (err: Option<PyError>)
      modifies this
      ensures update && AddToKwargsOf(dct).Err? ==> err == Some(TypeError) && unchanged(this)
      ensures update && AddToKwargsOf(dct).Ok? ==>
                err == None &&
                forall c :: MergeStep(old(Get(c)), if Name(c) in dct then dct[Name(c)] else [], Get(c),
                                      "remove" in dct && dct["remove"] != [])
      ensures !update && KwargsOf(dct).Err? ==> err == Some(TypeError) && unchanged(this)
      ensures !update && KwargsOf(dct).Ok? ==>
                err == None &&
                forall c :: Get(c) == if Name(c) in dct && dct[Name(c)] != [] then dct[Name(c)] else old(Get(c))
    {
      match FromJsonCallIntended(dct, update)
      case Err(e) =>
        err := Some(e);
      case Ok(AddToCall(args, remove)) =>
        Update(args, remove);
        err := None;
      case Ok(ReplaceCall(args)) =>
        Replace(args);
        err := None;
    }

    /** Iteration: the five (name, list) pairs in channel order. */
    function Items(): (r: seq<(string, seq<string>)>)
      reads this
      ensures r == [("emails", emails), ("slack", slack), ("pagerduty", pagerduty),
                    ("phones", phones), ("webhooks", webhooks)]
    {
      seq(|Types|, i requires 0 <= i < |Types| reads this => (Name(Types[i]), Get(Types[i])))
    }

    /** The object `str` encodes: all five channels, by name, under the
        single key "notifications". */
    function Serialized(): (v: Value)
      reads this
      ensures v.Dict? && Keys(v.items) == [Str("notifications")]
      ensures v.items[0].1.Dict?
      ensures Keys(v.items[0].1.items) == [Str("emails"), Str("slack"), Str("pagerduty"), Str("phones"), Str("webhooks")]
    {
      Dict([(Str("notifications"), Dict(ChannelItems(this)))])
    }
  }

  /** The channel dict inside the serialised form. */
  function ChannelItems(n: Notifications): seq<(Value, Value)>
    reads n
  {
    seq(|Types|, i requires 0 <= i < |Types| reads n => (Str(Name(Types[i])), StrList(n.Get(Types[i]))))
  }

  /** The serialised form holds each channel's current list under its name. */
  lemma SerializedHoldsEveryChannel(n: Notifications, c: Channel)
    ensures Lookup(n.Serialized().items[0].1.items, Str(Name(c))) == Some(StrList(n.Get(c)))
  {
    var inner := ChannelItems(n);
    assert DistinctKeys(inner);
    LookupDistinct(inner, Index(c));
  }

  /** The serialised form does not go back through `fromjson`: its only
      top-level key, "notifications", names no channel, so passing the
      decoded payload as keyword arguments raises a TypeError in either mode
      (and update mode as written fails on the missing method anyway). */
  lemma SerializedFormRejected(n: Notifications, dct: map<string, seq<string>>, update: bool)
    requires "notifications" in dct
    ensures Keys(n.Serialized().items) == [Str("notifications")]
    ensures FromJsonCall(dct, update).Err?
    ensures FromJsonCallIntended(dct, update) == Err(TypeError)
  {
    assert ChannelOf("notifications").None?;
  }

  /** A list of strings as a value. */
  function StrList(l: seq<string>): Value
  {
    List(seq(|l|, i requires 0 <= i < |l| => Str(l[i])))
  }
}
