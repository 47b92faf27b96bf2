/** A monitor as the client builds it: a name, a note, its rules and
    notifications (both start empty) and the fields only the service
    assigns, taken from keyword arguments. */
module Monitors {
  import opened Values
  import Rules

  class Monitor {
    var name: Value
    var note: Value
    var rules: seq<Rules.Rule>
    /** Starts as the empty dict `{}`, not as a `Notifications` object. */
    var notifications: Value

    // Read-only fields, filled from keyword arguments at construction only.
    var code: Value
    var isPaused: Value
    var isPassing: Value
    var initialized: Value
    var created: Value

    /** `Monitor(name, **kwargs)`: the note defaults to the empty string and
        every read-only field to `None`; keyword arguments other than these
        six are ignored. No argument is validated. */
    constructor (name: Value, kwargs: map<string, Value>)
      ensures this.name == name
      ensures rules == [] && notifications == Dict([])
      ensures note == if "note" in kwargs then kwargs["note"] else Str("")
      ensures code == if "code" in kwargs then kwargs["code"] else Null
      ensures isPaused == if "is_paused" in kwargs then kwargs["is_paused"] else Null
      ensures isPassing == if "is_passing" in kwargs then kwargs["is_passing"] else Null
      ensures initialized == if "initialized" in kwargs then kwargs["initialized"] else Null
      ensures created == if "created" in kwargs then kwargs["created"] else Null
    {
      this.name := name;
      notifications := Dict([]);
      rules := [];
      note := GetOr(kwargs, "note", Str(""));
      code := GetOr(kwargs, "code", Null);
      isPaused := GetOr(kwargs, "is_paused", Null);
      isPassing := GetOr(kwargs, "is_passing", Null);
      initialized := GetOr(kwargs, "initialized", Null);
      created := GetOr(kwargs, "created", Null);
    }

    /** `add_rule` has an empty body: no rule is built and nothing changes. */
    method AddRule(ruleType: Value, ruleDuration: Value, timeUnit: Value, followup: Value)
      ensures unchanged(this)
    {
    }

    /** `add_notif` has an empty body: nothing changes. */
    method AddNotif(notifType: Value, dests: Value)
      ensures unchanged(this)
    {
    }
  }
}
