/**
 * Extraction of a notification payload from an Android intent
 * (`getNotificationDataFromIntent` in MainActivity.kt).
 *
 * The extras bundle is a map from string keys to values that may be null; the
 * values are opaque, so the conversion `value.toString()` is passed in as `show`.
 */
module Extraction {
  import opened Wrappers

  /** An extras bundle: every key maps to a value, which may be null. */
  type Bundle<V> = map<string, Option<V>>

  /** A notification payload as the Flutter side receives it. */
  type Payload = map<string, string>

  /** The part of an `Intent` the extraction looks at: its optional extras. */
  datatype Intent<V> = Intent(extras: Option<Bundle<V>>)

  /** Kotlin's case-sensitive `String.startsWith(prefix)`: Dafny's `<=` on sequences is "is a prefix of". */
  predicate StartsWith(s: string, prefix: string) {
    prefix <= s
  }

  /** A key that the push transport reserves for itself and that is never handed on. */
  predicate IsReserved(key: string) {
    || StartsWith(key, "google.")
    || StartsWith(key, "gcm.")
    || StartsWith(key, "from")
    || key == "collapse_key"
  }

  /** The map that the loop over `extras.keySet()` builds: null values dropped, others stringified. */
  function Stringified<V>(extras: Bundle<V>, show: V -> string): Payload {
    map k | k in extras && extras[k].Some? :: show(extras[k].value)
  }

  /** The `filter` that keeps only the keys that are not reserved. */
  function WithoutReserved(data: Payload): (r: Payload)
    ensures r.Keys <= data.Keys
    ensures forall k :: k in data ==> (k in r <==> !IsReserved(k))
    ensures forall k :: k in r ==> r[k] == data[k]
  {
    map k | k in data && !IsReserved(k) :: data[k]
  }

  /** `if (filteredData.isNotEmpty()) filteredData else null`. */
  function NullIfEmpty(data: Payload): (r: Option<Payload>)
    ensures r.None? <==> data == map[]
    ensures r.Some? ==> r.value == data
  {
    if data != map[] then Some(data) else None
  }

  /** What `getNotificationDataFromIntent` returns for a (possibly null) intent. */
  function NotificationData<V>(intent: Option<Intent<V>>, show: V -> string): Option<Payload> {
    match intent
    case None => None
    case Some(i) =>
      match i.extras
      case None => None
      case Some(extras) => NullIfEmpty(WithoutReserved(Stringified(extras, show)))
  }

  /** The loop over `extras.keySet()` that fills a mutable map with the non-null values. */
  method CollectExtras<V>(extras: Bundle<V>, show: V -> string) returns (data: Payload)
    ensures forall k :: k in data <==> k in extras && extras[k].Some?
    ensures forall k :: k in data ==> data[k] == show(extras[k].value)
    ensures data == Stringified(extras, show)
  {
    data := map[];
    var remaining := extras.Keys;
    while remaining != {}
      invariant remaining <= extras.Keys
      invariant forall k :: k in data <==> k in extras && k !in remaining && extras[k].Some?
      invariant forall k :: k in data ==> data[k] == show(extras[k].value)
      decreases remaining
    {
      var key :| key in remaining;
      var value := extras[key];
      if value.Some? {
        data := data[key := show(value.value)];
      }
      remaining := remaining - {key};
    }
  }

  /** `getNotificationDataFromIntent`: null intent or extras give null, otherwise the filtered map or null. */
  method GetNotificationDataFromIntent<V>(intent: Option<Intent<V>>, show: V -> string)
    returns (r: Option<Payload>)
    ensures r == NotificationData(intent, show)
  {
    if intent.None? {
      return None;
    }
    var extras := intent.value.extras;
    if extras.None? {
      return None;
    }
    var data := CollectExtras(extras.value, show);
    var filteredData := WithoutReserved(data);
    if filteredData != map[] {
      r := Some(filteredData);
    } else {
      r := None;
    }
  }

  /** The keys a bundle contributes to the payload: non-null and not reserved. */
  ghost function Surviving<V>(extras: Bundle<V>): set<string> {
    set k | k in extras && extras[k].Some? && !IsReserved(k)
  }

  // ---------------------------------------------------------------------------
  // Properties of the extraction

  /** Without an intent, or with an intent that has no extras, the result is null. */
  lemma NullWithoutIntentOrExtras<V>(intent: Option<Intent<V>>, show: V -> string)
    requires intent.None? || intent.value.extras.None?
    ensures NotificationData(intent, show) == None
  {
  }

  /** Prefix matching covers longer keys: `from_user` is as reserved as `from`. */
  lemma ReservedKeyExamples()
    ensures IsReserved("from") && IsReserved("from_user") && IsReserved("google.message_id")
    ensures IsReserved("gcm.n.e") && IsReserved("collapse_key")
  {
  }

  /** Matching is case-sensitive and exact: `From`, `google` and `collapse_key2` are ordinary keys. */
  lemma OrdinaryKeyExamples()
    ensures !IsReserved("From") && !IsReserved("Google.x") && !IsReserved("google")
    ensures !IsReserved("collapse_key2") && !IsReserved("title") && !IsReserved("order_id")
  {
    assert "From"[0] == 'F' && "Google.x"[0] == 'G' && "title"[0] == 't' && "order_id"[0] == 'o';
    assert "google"[1] == 'o' && |"google"| < |"google."|;
    assert "collapse_key2"[0] == 'c' && "collapse_key2" != "collapse_key";
  }

  /** The result keys are exactly the non-null, non-reserved keys of the extras. */
  lemma KeysExactlySurviving<V>(extras: Bundle<V>, show: V -> string)
    ensures NotificationData(Some(Intent(Some(extras))), show).None? <==> Surviving(extras) == {}
    ensures NotificationData(Some(Intent(Some(extras))), show).Some? ==>
              NotificationData(Some(Intent(Some(extras))), show).value.Keys == Surviving(extras)
  {
  }

  /** Null values never appear; every returned value is the stringified extras value. */
  lemma ValuesAreStringified<V>(intent: Option<Intent<V>>, show: V -> string, k: string)
    requires NotificationData(intent, show).Some?
    requires k in NotificationData(intent, show).value
    ensures intent.Some? && intent.value.extras.Some?
    ensures k in intent.value.extras.value && intent.value.extras.value[k].Some?
    ensures NotificationData(intent, show).value[k] == show(intent.value.extras.value[k].value)
  {
  }

  /** No reserved key is ever returned, and the result is never an empty map. */
  lemma DeliverableResult<V>(intent: Option<Intent<V>>, show: V -> string)
    requires NotificationData(intent, show).Some?
    ensures NotificationData(intent, show).value != map[]
    ensures forall k :: k in NotificationData(intent, show).value ==> !IsReserved(k)
  {
  }

  /** A bundle made only of transport keys yields null. */
  lemma OnlyReservedYieldsNull<V>(extras: Bundle<V>, show: V -> string)
    requires forall k :: k in extras ==> IsReserved(k)
    ensures NotificationData(Some(Intent(Some(extras))), show) == None
  {
  }

  /** A payload with a title, a transport priority, a collapse key and an order id keeps the first and last. */
  lemma MixedBundleExample()
    ensures NotificationData(
              Some(Intent(Some(map[
                "title" := Some("Hi"),
                "google.delivered_priority" := Some("high"),
                "collapse_key" := Some("x"),
                "order_id" := Some("42")]))),
              (s: string) => s)
            == Some(map["title" := "Hi", "order_id" := "42"])
  {
    var extras: Bundle<string> := map[
      "title" := Some("Hi"),
      "google.delivered_priority" := Some("high"),
      "collapse_key" := Some("x"),
      "order_id" := Some("42")];
    var data := Stringified(extras, (s: string) => s);
    assert data.Keys == extras.Keys;
    assert data["title"] == "Hi" && data["order_id"] == "42";
    assert IsReserved("google.delivered_priority") && IsReserved("collapse_key");
    OrdinaryKeyExamples();
    var filtered := WithoutReserved(data);
    var expected := map["title" := "Hi", "order_id" := "42"];
    assert filtered.Keys == expected.Keys;
    assert filtered == expected;
  }

  /** A bundle holding only a GCM message id and a sender yields null. */
  lemma TransportOnlyBundleExample()
    ensures NotificationData(
              Some(Intent(Some(map["gcm.message_id" := Some("123"), "from" := Some("server")]))),
              (s: string) => s)
            == None
  {
    OnlyReservedYieldsNull(map["gcm.message_id" := Some("123"), "from" := Some("server")], (s: string) => s);
  }
}
