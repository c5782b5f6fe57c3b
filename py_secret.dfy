/**
 * `build_secret` and `_encode` of the Python operator: a Secret holding the
 * credentials that are given inline and not by reference, each stored as the
 * Base 64 encoding of its UTF-8 bytes; no Secret at all when there is none.
 */
module PySecret {
  import opened Common
  import opened PySpec
  import opened PyManifest
  import opened PyNames
  import Base64
  import Utf8

  /** `_encode`: Base 64 (section 4 of RFC 4648) of the UTF-8 encoding. */
  function EncodeValue(value: string): string {
    Base64.Encode(Utf8.Encode(value))
  }

  /** What a consumer of the Secret reads back: Base 64 decoding, then UTF-8 decoding. */
  function DecodeValue(s: string): Option<string> {
    match Base64.Decode(s)
    case None => None
    case Some(bs) => Utf8.Decode(bs)
  }

  /** Decoding a stored value gives back the inline string. */
  lemma EncodeValueRoundTrip(value: string)
    ensures DecodeValue(EncodeValue(value)) == Some(value)
  {
    Base64.DecodeEncode(Utf8.Encode(value));
    Utf8.DecodeEncode(value);
  }

  /** Different inline strings are stored differently. */
  lemma EncodeValueInjective(v: string, w: string)
    requires EncodeValue(v) == EncodeValue(w)
    ensures v == w
  {
    EncodeValueRoundTrip(v);
    EncodeValueRoundTrip(w);
  }

  /** The credential each Secret key stores. */
  function CredentialOf(spec: EdgeLakeOperatorSpec, k: SecretKey): Credential {
    match k
    case DbPassword => DbCredential(spec)
    case NosqlPassword => NosqlCredential(spec)
    case MqttPassword => MqttCredential(spec)
    case LicenseKey => LicenseCredential(spec)
  }

  /** `has_inline_secrets` is "some Secret key has an inline-only credential". */
  lemma HasInlineSecretsByKey(spec: EdgeLakeOperatorSpec)
    ensures HasInlineSecrets(spec) <==> exists k: SecretKey :: InlineOnly(CredentialOf(spec, k))
  {
    if HasInlineSecrets(spec) {
      if InlineOnly(DbCredential(spec)) { assert InlineOnly(CredentialOf(spec, DbPassword)); }
      else if InlineOnly(NosqlCredential(spec)) { assert InlineOnly(CredentialOf(spec, NosqlPassword)); }
      else if InlineOnly(MqttCredential(spec)) { assert InlineOnly(CredentialOf(spec, MqttPassword)); }
      else { assert InlineOnly(CredentialOf(spec, LicenseKey)); }
    }
  }

  /** The four Secret keys. */
  lemma SecretKeysComplete(k: SecretKey)
    ensures k in {DbPassword, NosqlPassword, MqttPassword, LicenseKey}
  {
    match k
    case DbPassword =>
    case NosqlPassword =>
    case MqttPassword =>
    case LicenseKey =>
  }

  /** The dictionary after one `if value and not ref: data[key] = _encode(value)` step. */
  function WithInline(data: map<SecretKey, string>, k: SecretKey, c: Credential): map<SecretKey, string> {
    if InlineOnly(c) then data[k := EncodeValue(c.inline.value)] else data
  }

  /** The `data` dictionary of `build_secret` after the four steps, as one value. */
  function SecretDataOf(spec: EdgeLakeOperatorSpec): map<SecretKey, string> {
    WithInline(WithInline(WithInline(WithInline(map[], DbPassword, DbCredential(spec)),
      NosqlPassword, NosqlCredential(spec)), MqttPassword, MqttCredential(spec)), LicenseKey, LicenseCredential(spec))
  }

  /** What `build_secret` returns, as one value: no Secret when the dictionary is empty. */
  function SecretOf(name: string, namespace: string, spec: EdgeLakeOperatorSpec, names: ResourceNames): Option<Manifest> {
    var data := SecretDataOf(spec);
    if |data| == 0 then None
    else Some(Secret(ObjectMeta(names.secret, namespace, Labels(name), None, false), "Opaque", data))
  }

  /** One `if value and not ref: data[key] = _encode(value)` step. */
  method InsertIfInline(data: map<SecretKey, string>, k: SecretKey, c: Credential) returns (data': map<SecretKey, string>)
    ensures data' == WithInline(data, k, c)
    ensures InlineOnly(c) ==> data' == data[k := EncodeValue(c.inline.value)]
    ensures !InlineOnly(c) ==> data' == data
  {
    data' := data;
    if TruthyStr(c.inline) && c.ref.None? {
      data' := data'[k := EncodeValue(c.inline.value)];
    }
  }

  /**
   * The `data` dictionary of `build_secret`, filled key by key: each of the
   * four keys exactly when its credential is inline-only, holding the
   * encoding of the inline value.
   */
  method SecretData(spec: EdgeLakeOperatorSpec) returns (data: map<SecretKey, string>)
    ensures data == SecretDataOf(spec)
    ensures forall k: SecretKey :: k in data <==> InlineOnly(CredentialOf(spec, k))
    ensures forall k | k in data :: InlineOnly(CredentialOf(spec, k)) && data[k] == EncodeValue(CredentialOf(spec, k).inline.value)
  {
    data := map[];
    data := InsertIfInline(data, DbPassword, DbCredential(spec));
    data := InsertIfInline(data, NosqlPassword, NosqlCredential(spec));
    data := InsertIfInline(data, MqttPassword, MqttCredential(spec));
    data := InsertIfInline(data, LicenseKey, LicenseCredential(spec));
    forall k: SecretKey
      ensures (k in data <==> InlineOnly(CredentialOf(spec, k)))
      ensures k in data ==> data[k] == EncodeValue(CredentialOf(spec, k).inline.value)
    {
      SecretKeysComplete(k);
    }
  }

  /**
   * `build_secret`: the Secret is absent exactly when no key was inserted,
   * which is exactly when the spec has no inline secrets; otherwise it is an
   * Opaque Secret named `resource_names["secret"]` with the standard labels,
   * and every stored value decodes to its inline credential.
   */
  method BuildSecret(name: string, namespace: string, spec: EdgeLakeOperatorSpec, names: ResourceNames)
    returns (r: Option<Manifest>)
    ensures r == SecretOf(name, namespace, spec, names)
    ensures r.None? <==> !HasInlineSecrets(spec)
    ensures r.Some? ==> r.value.Secret? && KindOf(r.value) == Some(SecretKind)
    ensures r.Some? ==> r.value.meta == ObjectMeta(names.secret, namespace, Labels(name), None, false)
    ensures r.Some? ==> r.value.secretType == "Opaque"
    ensures r.Some? ==> forall k: SecretKey :: k in r.value.secretData <==> InlineOnly(CredentialOf(spec, k))
    ensures r.Some? ==> forall k | k in r.value.secretData ::
      DecodeValue(r.value.secretData[k]) == CredentialOf(spec, k).inline
  {
    var data := SecretData(spec);
    HasInlineSecretsByKey(spec);
    if |data| == 0 {
      assert forall k: SecretKey :: k !in data;
      return None;
    }
    forall k | k in data
      ensures DecodeValue(data[k]) == CredentialOf(spec, k).inline
    {
      EncodeValueRoundTrip(CredentialOf(spec, k).inline.value);
    }
    r := Some(Secret(ObjectMeta(names.secret, namespace, Labels(name), None, false), "Opaque", data));
  }
}
