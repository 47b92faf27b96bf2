/** One alert rule of a monitor and the mapping it builds at construction:
    `rule_type`, `duration` and `time_unit`, plus `hours_to_followup_alert`
    when a follow-up was given, nested under the rule's id when the service
    assigned one. */
module Rules {
  import opened Values

  /** What the constructor stores. `followup` is `Null` when no follow-up
      was passed; `id` is the `id` keyword argument, `Null` when absent.
      A rule only exists with an id that can be a dict key. */
  datatype Rule = Rule(ruleType: Value, duration: Value, timeUnit: Value, followup: Value, id: Value)

  const FollowupKey: string := "hours_to_followup_alert"

  /** `Rule(rule_type, rule_duration, time_unit, hours_to_followup_alert, **kwargs)`:
      every keyword argument other than `id` is ignored. */
  function NewRule(ruleType: Value, ruleDuration: Value, timeUnit: Value, followup: Value,
                   kwargs: map<string, Value>): (res: Result<Rule, PyError>)
    ensures res.Err? <==> "id" in kwargs && !Hashable(kwargs["id"])
    ensures res.Err? ==> res.error == TypeError
    ensures res.Ok? ==> res.value.ruleType == ruleType && res.value.duration == ruleDuration
                        && res.value.timeUnit == timeUnit && res.value.followup == followup
    ensures res.Ok? ==> res.value.id == if "id" in kwargs then kwargs["id"] else Null
  {
    var id := GetOr(kwargs, "id", Null);
    // `{self.id: self.obj}` raises when the id cannot be a dict key.
    if Hashable(id) then Ok(Rule(ruleType, ruleDuration, timeUnit, followup, id)) else Err(TypeError)
  }

  /** The field names the constructor lists: the follow-up name is appended
      only when a follow-up is not `None`. */
  function FieldNames(r: Rule): seq<Value>
  {
    [Str("rule_type"), Str("duration"), Str("time_unit")]
    + (if r.followup != Null then [Str(FollowupKey)] else [])
  }

  /** The rule's `obj` mapping: the field names zipped with all four values
      (so the follow-up value is dropped by `zip` when its name was not
      listed), nested as `{id: ...}` when the id is not `None`. This is also
      what `str` encodes and what iteration yields the items of. */
  function Obj(r: Rule): (v: Value)
    requires Hashable(r.id)
    ensures v.Dict? && DistinctKeys(v.items)
    ensures r.id != Null ==> Keys(v.items) == [r.id]
    ensures r.id == Null ==> |v.items| == if r.followup == Null then 3 else 4
  {
    var flat := Dict(Zip(FieldNames(r), [r.ruleType, r.duration, r.timeUnit, r.followup]));
    if r.id != Null then Dict([(r.id, flat)]) else flat
  }

  /** Iterating over a rule yields the items of its mapping, in order. */
  function Items(r: Rule): (items: seq<(Value, Value)>)
    requires Hashable(r.id)
    ensures r.id != Null ==> |items| == 1 && items[0] == (r.id, Obj(r.(id := Null)))
    ensures r.id == Null ==> Keys(items) == FieldNames(r)
  {
    Obj(r).items
  }

  /** A rule without an id is the flat mapping: exactly the three required
      keys, in order, each holding its argument, and the follow-up key if and
      only if a follow-up was given, holding that value. */
  lemma FlatRuleShape(r: Rule)
    requires r.id == Null
    ensures Obj(r).Dict?
    ensures Keys(Items(r)) == [Str("rule_type"), Str("duration"), Str("time_unit")]
                              + (if r.followup == Null then [] else [Str(FollowupKey)])
    ensures Lookup(Items(r), Str("rule_type")) == Some(r.ruleType)
    ensures Lookup(Items(r), Str("duration")) == Some(r.duration)
    ensures Lookup(Items(r), Str("time_unit")) == Some(r.timeUnit)
    ensures Lookup(Items(r), Str(FollowupKey)) == if r.followup == Null then None else Some(r.followup)
  {
    var items := Items(r);
    assert items[0] == (Str("rule_type"), r.ruleType);
    assert items[1] == (Str("duration"), r.duration);
    assert items[2] == (Str("time_unit"), r.timeUnit);
    if r.followup != Null {
      assert items[3] == (Str(FollowupKey), r.followup);
    }
  }

  /** A rule with an id has exactly one key, the id, and under it the flat
      mapping of the same rule without an id. */
  lemma KeyedRuleShape(r: Rule)
    requires r.id != Null && Hashable(r.id)
    ensures Obj(r).Dict? && |Items(r)| == 1
    ensures Items(r)[0].0 == r.id
    ensures Items(r)[0].1 == Obj(r.(id := Null))
    ensures Lookup(Items(r), r.id) == Some(Obj(r.(id := Null)))
  {
  }
}
