/** The admin settings endpoint over its in-memory store: GET shows the
    settings with the key secret masked, POST merges new settings in once they
    carry a key id and a key secret. */
module SettingsStore {
  import opened Common

  /** What GET shows in place of a non-empty key secret: sixteen bullets. */
  const Mask: string := "••••••••••••••••"

  /** The fields the store always holds. */
  const SettingsKeys: set<string> :=
    {"keyId", "keySecret", "webhookSecret", "isTestMode", "supportedCurrencies", "merchantName", "merchantDescription"}

  /** The store at start-up: the keys from the environment (or ""), no webhook
      secret, test mode, INR only, and the merchant's name and description. */
  function InitialSettings(envKeyId: Option<string>, envKeySecret: Option<string>): (s: map<string, Json>)
    ensures s.Keys == SettingsKeys
    ensures s["keyId"] == JStr(Or(envKeyId, "")) && s["keySecret"] == JStr(Or(envKeySecret, ""))
    ensures s["webhookSecret"] == JStr("") && s["isTestMode"] == JBool(true)
    ensures s["supportedCurrencies"] == JArr([JStr(DefaultCurrency)])
  {
    map[
      "keyId" := JStr(Or(envKeyId, "")),
      "keySecret" := JStr(Or(envKeySecret, "")),
      "webhookSecret" := JStr(""),
      "isTestMode" := JBool(true),
      "supportedCurrencies" := JArr([JStr(DefaultCurrency)]),
      "merchantName" := JStr("Thepla House"),
      "merchantDescription" := JStr("Delicious Indian Food")]
  }

  /** What GET shows: every field as stored except the key secret, which is
      the mask when truthy and "" otherwise. */
  function MaskedView(s: map<string, Json>): (view: map<string, Json>)
    ensures view.Keys == s.Keys + {"keySecret"}
    ensures view["keySecret"] == if "keySecret" in s && Truthy(s["keySecret"]) then JStr(Mask) else JStr("")
    ensures forall k :: k in s && k != "keySecret" ==> view[k] == s[k]
  {
    s["keySecret" := if "keySecret" in s && Truthy(s["keySecret"]) then JStr(Mask) else JStr("")]
  }

  /** `{ ...settings, ...newSettings }`: the new fields win, the others stay. */
  function Merged(s: map<string, Json>, update: map<string, Json>): (m: map<string, Json>)
    ensures m.Keys == s.Keys + update.Keys
    ensures forall k :: k in update ==> m[k] == update[k]
    ensures forall k :: k in s && k !in update ==> m[k] == s[k]
  {
    s + update
  }

  /** A POST body the endpoint accepts: one with a truthy key id and key secret. */
  predicate Acceptable(body: Json)
    ensures Acceptable(body) ==> body.JObj? && "keyId" in body.fields && "keySecret" in body.fields
    ensures Acceptable(body) ==> Truthy(body.fields["keyId"]) && Truthy(body.fields["keySecret"])
  {
    var keyId := Field(body, "keyId");
    var keySecret := Field(body, "keySecret");
    keyId.Some? && Truthy(keyId.value) && keySecret.Some? && Truthy(keySecret.value)
  }

  datatype SettingsReply =
    | View(settings: map<string, Json>)
    | Saved(message: string)
    | SettingsError(error: string)

  /** Merging is idempotent: posting the same settings twice stores the same
      as posting them once. */
  lemma MergeIdempotent(s: map<string, Json>, update: map<string, Json>)
    ensures Merged(Merged(s, update), update) == Merged(s, update)
  {
  }

  /** Whatever the store holds, GET never shows anything but the mask or "" as
      the key secret, so a secret other than those is never revealed. */
  lemma SecretNeverShown(s: map<string, Json>, secret: string)
    requires "keySecret" in s && s["keySecret"] == JStr(secret) && secret != Mask && secret != ""
    ensures MaskedView(s)["keySecret"] != JStr(secret)
    ensures MaskedView(s)["keySecret"] == JStr(Mask)
  {
  }

  class Store {
    var settings: map<string, Json>

    /** The store keeps every one of its fields: a merge adds and replaces,
        never removes. It is why GET always shows every settings field. */
    predicate Valid()
      reads this
    {
      SettingsKeys <= settings.Keys
    }

    constructor (envKeyId: Option<string>, envKeySecret: Option<string>)
      ensures settings == InitialSettings(envKeyId, envKeySecret)
      ensures Valid()
    {
      settings := InitialSettings(envKeyId, envKeySecret);
    }

    /** The endpoint. A null POST body makes reading its fields raise, which
        the handler reports as a failure to save. */
    method Handle(httpMethod: string, body: Json) returns (r: Reply<SettingsReply>)
      requires Valid()
      modifies this
      ensures Valid()
      ensures httpMethod == "GET" ==> r == Reply(200, View(MaskedView(old(settings)))) && settings == old(settings)
      ensures httpMethod == "GET" ==> SettingsKeys <= r.body.settings.Keys
      ensures httpMethod == "POST" && body.JNull? ==>
        r == Reply(500, SettingsError("Failed to save settings")) && settings == old(settings)
      ensures httpMethod == "POST" && !body.JNull? && !Acceptable(body) ==>
        r == Reply(400, SettingsError("Key ID and Key Secret are required")) && settings == old(settings)
      ensures httpMethod == "POST" && Acceptable(body) ==>
        r == Reply(200, Saved("Settings saved successfully")) && settings == Merged(old(settings), body.fields)
      ensures httpMethod != "GET" && httpMethod != "POST" ==>
        r == Reply(405, SettingsError("Method not allowed")) && settings == old(settings)
    {
      if httpMethod == "GET" {
        r := Reply(200, View(MaskedView(settings)));
      } else if httpMethod == "POST" {
        if body.JNull? {
          r := Reply(500, SettingsError("Failed to save settings"));
        } else if !Acceptable(body) {
          r := Reply(400, SettingsError("Key ID and Key Secret are required"));
        } else {
          settings := Merged(settings, body.fields);
          r := Reply(200, Saved("Settings saved successfully"));
        }
      } else {
        r := Reply(405, SettingsError("Method not allowed"));
      }
    }
  }

  /** Saving credentials and then reading the settings back shows the saved
      key id and the mask, never the saved secret. */
  method SaveThenView(store: Store, body: Json) returns (saved: Reply<SettingsReply>, viewed: Reply<SettingsReply>)
    requires store.Valid()
    modifies store
    ensures store.Valid()
    ensures Acceptable(body) ==>
      && saved.status == 200 && viewed.status == 200 && viewed.body.View?
      && "keyId" in viewed.body.settings && "keySecret" in viewed.body.settings
      && viewed.body.settings["keyId"] == body.fields["keyId"]
      && viewed.body.settings["keySecret"] == JStr(Mask)
  {
    saved := store.Handle("POST", body);
    viewed := store.Handle("GET", JNull);
  }
}
