/**
 * Notification validation of the API (packages/api/src/notifiers.js): the
 * `Notifiers` table, holding one webhook notifier, and the two
 * normalizeNotification functions. Both write into the notification object
 * they are given and return an error string, or undefined when it is valid.
 *
 * Objects are values here, so the object as it is after the call is
 * returned next to the function's completion.
 */
module Notifiers {
  import opened Wrappers
  import opened Js

  /** How a call ended: a returned value or a thrown error. */
  datatype Completion = Returned(v: Value) | Threw(error: string)

  /** The name of the error thrown by reading a property of null, writing one on a primitive, or calling a non-function. */
  const TypeError := "TypeError"

  /** The webhook notifier object (notifiers.js:2-13). */
  const Webhook: Value := Obj([("normalizeNotification", Fn("normalizeNotification"))])

  /** Object.keys(Notifiers) as a template literal prints it. */
  const UnknownTypeMessage := "Unrecognized 'type' attribute (must be one of: webhook)"
  const UrlMessage := "Missing valid string for 'url' attribute"
  const DefaultMethod := "get"

  function MethodMessage(given: Value): string {
    "Unexpected value provided for method '" + ToString(given) + "'"
  }

  /** The members every plain object inherits from Object.prototype. */
  const PrototypeKeys: set<string> := {
    "constructor", "hasOwnProperty", "isPrototypeOf", "propertyIsEnumerable", "toLocaleString",
    "toString", "valueOf", "__defineGetter__", "__defineSetter__", "__lookupGetter__",
    "__lookupSetter__", "__proto__"}

  /** The table's own key is not one of the inherited ones. */
  lemma WebhookNotInherited()
    ensures "webhook" !in PrototypeKeys
  {
  }

  /**
   * `Notifiers[key]`: the webhook notifier, an inherited member of
   * Object.prototype (functions, with Object.prototype itself under
   * "__proto__"), or undefined.
   */
  function NotifierEntry(key: string): (v: Value)
    ensures Truthy(v) <==> key == "webhook" || key in PrototypeKeys
    ensures v == Webhook <==> key == "webhook"
  {
    if key == "webhook" then Webhook
    else if key == "__proto__" then Obj([])
    else if key == "constructor" then Fn("Object")
    else if key in PrototypeKeys then Fn(key)
    else Undefined
  }

  /**
   * What the webhook validator decides for an object notification
   * (notifiers.js:3-12), and the object afterwards: the url message when
   * the url is not a string; otherwise the method is defaulted to "get"
   * when falsy and written back, and the method message is returned when
   * it is still not a string.
   */
  function WebhookVerdict(n: Value): (r: (Completion, Value))
    requires n.Obj? || n.Arr?
    ensures r.0 == Returned(Undefined) <==>
              Prop(n, "url").Str? && (!Truthy(Prop(n, "method")) || Prop(n, "method").Str?)
    ensures r.0.Returned? && (r.1.Obj? || r.1.Arr?)
    ensures forall k | k != "method" :: Prop(r.1, k) == Prop(n, k)
    ensures TypeOf(Prop(n, "url")) == "string" ==>
              Prop(r.1, "method") == (if Truthy(Prop(n, "method")) then Prop(n, "method") else Str(DefaultMethod))
  {
    if TypeOf(Prop(n, "url")) != "string" then (Returned(Str(UrlMessage)), n)
    else
      var given := Prop(n, "method");
      var chosen := if Truthy(given) then given else Str(DefaultMethod);
      var after := SetProp(n, "method", chosen).value;
      (if TypeOf(chosen) == "string" then Returned(Undefined) else Returned(Str(MethodMessage(chosen))), after)
  }

  /**
   * The webhook notifier's normalizeNotification (notifiers.js:3-12): the
   * url must be a string; a falsy method becomes "get" and is written back;
   * a method that is still not a string is an error.
   */
  method NormalizeWebhook(notification: Value) returns (c: Completion, after: Value)
    ensures Nullish(notification) ==> c.Threw?
    ensures notification.Obj? || notification.Arr? ==> (c, after) == WebhookVerdict(notification)
    ensures !Nullish(notification) && TypeOf(Prop(notification, "url")) != "string" ==>
              c == Returned(Str(UrlMessage)) && after == notification
    ensures (notification.Obj? || notification.Arr?) && TypeOf(Prop(notification, "url")) == "string" ==>
              var given := Prop(notification, "method");
              var chosen := if Truthy(given) then given else Str(DefaultMethod);
              && after == SetProp(notification, "method", chosen).value
              && c == (if TypeOf(chosen) == "string" then Returned(Undefined) else Returned(Str(MethodMessage(chosen))))
    ensures c == Returned(Undefined) <==>
              && (notification.Obj? || notification.Arr?) && Prop(notification, "url").Str?
              && (!Truthy(Prop(notification, "method")) || Prop(notification, "method").Str?)
    ensures c == Returned(Undefined) ==>
              && Prop(after, "method").Str? && Truthy(Prop(after, "method"))
              && (Truthy(Prop(notification, "method")) ==> Prop(after, "method") == Prop(notification, "method"))
    ensures !Nullish(notification) ==> !Nullish(after) && forall k | k != "method" :: Prop(after, k) == Prop(notification, k)
  {
    after := notification;
    if Nullish(notification) {
      return Threw(TypeError), after;
    }
    if TypeOf(Prop(notification, "url")) != "string" {
      return Returned(Str(UrlMessage)), after;
    }
    var given := Prop(notification, "method");
    if !Truthy(given) {
      given := Str(DefaultMethod);
    }
    var written := SetProp(notification, "method", given);
    if written.None? {
      return Threw(TypeError), after;
    }
    after := written.value;
    if TypeOf(Prop(after, "method")) != "string" {
      return Returned(Str(MethodMessage(given))), after;
    }
    return Returned(Undefined), after;
  }

  /**
   * normalizeNotification (notifiers.js:16-22) as written: a type that is
   * not a string, or whose `Notifiers[type]` is falsy, is refused with the
   * list of known types; otherwise the notifier is stored on the
   * notification and its own normalizeNotification decides. An inherited
   * key such as "constructor" passes the test, and calling the missing
   * method on what it finds throws.
   */
  method NormalizeNotification(notification: Value) returns (c: Completion, after: Value)
    ensures Nullish(notification) ==> c.Threw?
    ensures !Nullish(notification) ==> !Nullish(after)
    ensures !Nullish(notification) && !Prop(notification, "type").Str? ==> c == Returned(Str(UnknownTypeMessage))
    ensures !Nullish(notification) && Prop(notification, "type").Str? ==>
              var t := Prop(notification, "type").s;
              && (t != "webhook" && t !in PrototypeKeys ==> c == Returned(Str(UnknownTypeMessage)))
              && (t in PrototypeKeys ==> c.Threw?)
              && (t == "webhook" ==> Prop(after, "notifier") == Webhook)
    ensures c.Returned? && c.v == Undefined ==> Prop(notification, "type") == Str("webhook")
    ensures (notification.Obj? || notification.Arr?) && Prop(notification, "type") == Str("webhook") ==>
              (c, after) == WebhookVerdict(SetProp(notification, "notifier", Webhook).value)
  {
    WebhookNotInherited();
    after := notification;
    if Nullish(notification) {
      return Threw(TypeError), after;
    }
    var t := Prop(notification, "type");
    if TypeOf(t) != "string" || !Truthy(NotifierEntry(t.s)) {
      return Returned(Str(UnknownTypeMessage)), after;
    }
    var notifier := NotifierEntry(t.s);
    var written := SetProp(notification, "notifier", notifier);
    if written.None? {
      return Threw(TypeError), after;
    }
    after := written.value;
    if notifier != Webhook {
      return Threw(TypeError), after;
    }
    ghost var stored := after;
    c, after := NormalizeWebhook(after);
    assert Prop(after, "notifier") == Prop(stored, "notifier") by {
      assert "notifier" != "method";
    }
  }

  /**
   * normalizeNotification with the table lookup restricted to its own
   * keys, `Object.prototype.hasOwnProperty.call(Notifiers, type)`: every
   * type other than "webhook" is refused with the list of known types, and
   * nothing is thrown for an object notification.
   */
  method NormalizeNotificationOwn(notification: Value) returns (c: Completion, after: Value)
    ensures Nullish(notification) ==> c.Threw?
    ensures !Nullish(notification) ==> !Nullish(after)
    ensures !Nullish(notification) && Prop(notification, "type") != Str("webhook") ==>
              c == Returned(Str(UnknownTypeMessage)) && after == notification
    ensures (notification.Obj? || notification.Arr?) ==> c.Returned?
    ensures (notification.Obj? || notification.Arr?) && Prop(notification, "type") == Str("webhook") ==>
              Prop(after, "notifier") == Webhook
    ensures (notification.Obj? || notification.Arr?) && Prop(notification, "type") == Str("webhook") ==>
              (c, after) == WebhookVerdict(SetProp(notification, "notifier", Webhook).value)
  {
    after := notification;
    if Nullish(notification) {
      return Threw(TypeError), after;
    }
    var t := Prop(notification, "type");
    if TypeOf(t) != "string" || t.s != "webhook" {
      return Returned(Str(UnknownTypeMessage)), after;
    }
    var written := SetProp(notification, "notifier", Webhook);
    if written.None? {
      return Threw(TypeError), after;
    }
    after := written.value;
    ghost var stored := after;
    c, after := NormalizeWebhook(after);
    assert Prop(after, "notifier") == Prop(stored, "notifier") by {
      assert "notifier" != "method";
    }
  }
}
