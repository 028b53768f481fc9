/** `PayloadRedactor`: scrubs sensitive properties out of a JSON payload
    before it is stored in an audit row. The JSON parser and serialiser are
    parameters of `Redact`; everything between them is modelled here. */
module Redaction {
  import opened Wrappers
  import opened Text
  import opened Json
  import opened AuditOptions

  /** Membership in the `HashSet` built with `StringComparer.OrdinalIgnoreCase`:
      an exact match of the whole name, ignoring case. */
  predicate IsSensitive(keys: seq<string>, name: string) {
    exists i | 0 <= i < |keys| :: EqualsIgnoreCase(keys[i], name)
  }

  /** The node written in place of a sensitive value: the replacement string
      (a `null` replacement converts to a JSON null). */
  function ReplacementNode(replacement: Option<string>): (r: J)
    ensures r.JString? || r.JNull?
  {
    if replacement.Some? then JString(replacement.value) else JNull
  }

  predicate IsScalar(node: J) {
    !node.JObject? && !node.JArray?
  }

  /** The tree `RedactNode` leaves behind: a sensitive property's value is
      replaced and not descended into, every other property value and every
      array element is redacted recursively, and scalars stay as they are. */
  function RedactValue(node: J, keys: seq<string>, rep: J): (r: J)
    ensures node.JObject? <==> r.JObject?
    ensures node.JArray? <==> r.JArray?
    ensures IsScalar(node) ==> r == node
    ensures node.JObject? ==>
              |r.members| == |node.members| &&
              forall i :: 0 <= i < |node.members| ==> r.members[i].0 == node.members[i].0
    ensures node.JArray? ==> |r.items| == |node.items|
    decreases node
  {
    match node
    case JObject(ms) =>
      JObject(seq(|ms|, i requires 0 <= i < |ms| =>
        (ms[i].0, if IsSensitive(keys, ms[i].0) then rep else RedactValue(ms[i].1, keys, rep))))
    case JArray(items) =>
      JArray(seq(|items|, i requires 0 <= i < |items| => RedactValue(items[i], keys, rep)))
    case _ => node
  }

  /** `RedactNode`: one pass over a snapshot of an object's properties, or
      over an array's elements, recursing into children. */
  method RedactNode(node: J, keys: seq<string>, rep: J) returns (r: J)
    ensures r == RedactValue(node, keys, rep)
    decreases node
  {
    match node
    case JObject(ms) =>
      var out: seq<(string, J)> := [];
      var i := 0;
      while i < |ms|
        invariant 0 <= i <= |ms|
        invariant |out| == i
        invariant forall k :: 0 <= k < i ==>
                    out[k] == (ms[k].0, if IsSensitive(keys, ms[k].0) then rep else RedactValue(ms[k].1, keys, rep))
      {
        var (name, value) := ms[i];
        if IsSensitive(keys, name) {
          out := out + [(name, rep)];
        } else {
          var child := RedactNode(value, keys, rep);
          out := out + [(name, child)];
        }
        i := i + 1;
      }
      r := JObject(out);
    case JArray(items) =>
      var out: seq<J> := [];
      var i := 0;
      while i < |items|
        invariant 0 <= i <= |items|
        invariant |out| == i
        invariant forall k :: 0 <= k < i ==> out[k] == RedactValue(items[k], keys, rep)
      {
        var child := RedactNode(items[i], keys, rep);
        out := out + [child];
        i := i + 1;
      }
      r := JArray(out);
    case _ =>
      r := node;
  }

  /** `Redact`: blank input gives the empty string; text the parser rejects,
      and text that parses to JSON `null`, come back unchanged; any other
      value is redacted and serialised. */
  function Redact(json: Option<string>, options: AuditRedactionOptions,
                  parse: string -> ParseOutcome, serialize: J -> string): (r: string)
    requires options.SensitiveKeys.Some?
    ensures IsNullOrWhiteSpace(json) ==> r == ""
    ensures !IsNullOrWhiteSpace(json) && parse(json.value) == ParseError ==> r == json.value
    ensures !IsNullOrWhiteSpace(json) && parse(json.value) == Parsed(JNull) ==> r == json.value
    ensures !IsNullOrWhiteSpace(json) && parse(json.value).Parsed? && parse(json.value).node != JNull ==>
      r == serialize(RedactValue(parse(json.value).node, options.SensitiveKeys.value, ReplacementNode(options.Replacement)))
  {
    if IsNullOrWhiteSpace(json) then ""
    else
      match parse(json.value)
      case ParseError => json.value
      case Parsed(node) =>
        if node == JNull then json.value
        else serialize(RedactValue(node, options.SensitiveKeys.value, ReplacementNode(options.Replacement)))
  }

  /** Every property with a sensitive name, at any depth, holds `rep`. */
  ghost predicate NoSecretsLeft(node: J, keys: seq<string>, rep: J)
    decreases node
  {
    match node
    case JObject(ms) =>
      forall i :: 0 <= i < |ms| ==>
        (if IsSensitive(keys, ms[i].0) then ms[i].1 == rep else NoSecretsLeft(ms[i].1, keys, rep))
    case JArray(items) =>
      forall i :: 0 <= i < |items| ==> NoSecretsLeft(items[i], keys, rep)
    case _ => true
  }

  /** No property name anywhere in the tree is sensitive. */
  ghost predicate HasNoSensitiveKey(node: J, keys: seq<string>)
    decreases node
  {
    match node
    case JObject(ms) =>
      forall i :: 0 <= i < |ms| ==> !IsSensitive(keys, ms[i].0) && HasNoSensitiveKey(ms[i].1, keys)
    case JArray(items) =>
      forall i :: 0 <= i < |items| ==> HasNoSensitiveKey(items[i], keys)
    case _ => true
  }

  /** Redaction correctness: afterwards no sensitive property, however deeply
      nested, holds anything but the replacement. */
  lemma {:induction false} RedactionRemovesSecrets(node: J, keys: seq<string>, rep: J)
    ensures NoSecretsLeft(RedactValue(node, keys, rep), keys, rep)
    decreases node
  {
    var r := RedactValue(node, keys, rep);
    match node
    case JObject(ms) =>
      forall i | 0 <= i < |ms|
        ensures if IsSensitive(keys, r.members[i].0) then r.members[i].1 == rep
                else NoSecretsLeft(r.members[i].1, keys, rep)
      {
        if !IsSensitive(keys, ms[i].0) {
          RedactionRemovesSecrets(ms[i].1, keys, rep);
        }
      }
    case JArray(items) =>
      forall i | 0 <= i < |items| ensures NoSecretsLeft(r.items[i], keys, rep) {
        RedactionRemovesSecrets(items[i], keys, rep);
      }
    case _ =>
  }

  /** A payload that carries no sensitive property is left exactly as it was:
      nothing outside a sensitive key is touched. */
  lemma {:induction false} RedactWithoutSecretsIsIdentity(node: J, keys: seq<string>, rep: J)
    requires HasNoSensitiveKey(node, keys)
    ensures RedactValue(node, keys, rep) == node
    decreases node
  {
    match node
    case JObject(ms) =>
      var r := RedactValue(node, keys, rep);
      forall i | 0 <= i < |ms| ensures r.members[i] == ms[i] {
        RedactWithoutSecretsIsIdentity(ms[i].1, keys, rep);
      }
      assert r.members == ms;
    case JArray(items) =>
      var r := RedactValue(node, keys, rep);
      forall i | 0 <= i < |items| ensures r.items[i] == items[i] {
        RedactWithoutSecretsIsIdentity(items[i], keys, rep);
      }
      assert r.items == items;
    case _ =>
  }

  /** Redaction is idempotent: redacting an already redacted tree changes
      nothing, because the replacement is a scalar. */
  lemma {:induction false} RedactIdempotent(node: J, keys: seq<string>, rep: J)
    requires IsScalar(rep)
    ensures RedactValue(RedactValue(node, keys, rep), keys, rep) == RedactValue(node, keys, rep)
    decreases node
  {
    var r := RedactValue(node, keys, rep);
    var rr := RedactValue(r, keys, rep);
    match node
    case JObject(ms) =>
      forall i | 0 <= i < |ms| ensures rr.members[i] == r.members[i] {
        if !IsSensitive(keys, ms[i].0) {
          RedactIdempotent(ms[i].1, keys, rep);
        }
      }
      assert rr.members == r.members;
    case JArray(items) =>
      forall i | 0 <= i < |items| ensures rr.items[i] == r.items[i] {
        RedactIdempotent(items[i], keys, rep);
      }
      assert rr.items == r.items;
    case _ =>
  }

  /** Idempotence of the text transform, for a serialiser that the parser
      reads back and that never produces blank text. */
  lemma RedactTextIdempotent(json: Option<string>, options: AuditRedactionOptions,
                             parse: string -> ParseOutcome, serialize: J -> string)
    requires options.SensitiveKeys.Some?
    requires forall t :: parse(serialize(t)) == Parsed(t)
    requires forall t :: !IsBlank(serialize(t))
    ensures Redact(Some(Redact(json, options, parse, serialize)), options, parse, serialize)
         == Redact(json, options, parse, serialize)
  {
    var r := Redact(json, options, parse, serialize);
    if !IsNullOrWhiteSpace(json) && parse(json.value).Parsed? && parse(json.value).node != JNull {
      var node := parse(json.value).node;
      var keys := options.SensitiveKeys.value;
      var rep := ReplacementNode(options.Replacement);
      var t := RedactValue(node, keys, rep);
      assert r == serialize(t);
      assert parse(r) == Parsed(t);
      assert t != JNull;
      RedactIdempotent(node, keys, rep);
    }
  }

  /** Matching is on the whole name, ignoring case. */
  lemma SensitiveKeyMatching()
    ensures IsSensitive(DefaultSensitiveKeys, "PASSWORD")
    ensures IsSensitive(DefaultSensitiveKeys, "BearerToken")
    ensures !IsSensitive(DefaultSensitiveKeys, "mypassword")
    ensures !IsSensitive(DefaultSensitiveKeys, "tokens")
  {
    assert EqualsIgnoreCase(DefaultSensitiveKeys[3], "PASSWORD");
    assert EqualsIgnoreCase(DefaultSensitiveKeys[6], "BearerToken");
    forall i | 0 <= i < |DefaultSensitiveKeys|
      ensures !EqualsIgnoreCase(DefaultSensitiveKeys[i], "mypassword")
    {
      assert |DefaultSensitiveKeys[i]| != |"mypassword"|;
    }
    forall i | 0 <= i < |DefaultSensitiveKeys|
      ensures !EqualsIgnoreCase(DefaultSensitiveKeys[i], "tokens")
    {
      assert |DefaultSensitiveKeys[i]| != |"tokens"| || FoldChar(DefaultSensitiveKeys[i][0]) != 't';
    }
  }

  /** The worked example: a top-level and a nested secret are replaced, the
      neighbouring value is kept. */
  lemma NestedExample()
    ensures
      var input := JObject([("password", JString("p1")),
                            ("nested", JObject([("token", JString("t1")), ("keep", JString("v"))]))]);
      RedactValue(input, DefaultSensitiveKeys, JString(DefaultReplacement))
        == JObject([("password", JString(DefaultReplacement)),
                    ("nested", JObject([("token", JString(DefaultReplacement)), ("keep", JString("v"))]))])
  {
    var keys := DefaultSensitiveKeys;
    assert EqualsIgnoreCase(keys[3], "password");
    assert EqualsIgnoreCase(keys[0], "token");
    forall i | 0 <= i < |keys| ensures !EqualsIgnoreCase(keys[i], "nested") && !EqualsIgnoreCase(keys[i], "keep") {
      assert |keys[i]| != |"nested"| || FoldChar(keys[i][0]) != 'n';
      assert |keys[i]| != |"keep"| || FoldChar(keys[i][0]) != 'k';
    }
    var inner := JObject([("token", JString("t1")), ("keep", JString("v"))]);
    var input := JObject([("password", JString("p1")), ("nested", inner)]);
    assert RedactValue(inner, keys, JString(DefaultReplacement)).members
      == [("token", JString(DefaultReplacement)), ("keep", JString("v"))];
    assert RedactValue(input, keys, JString(DefaultReplacement)).members
      == [("password", JString(DefaultReplacement)), ("nested", RedactValue(inner, keys, JString(DefaultReplacement)))];
  }
}
