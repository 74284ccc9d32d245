/** The record validator both client variants share: a closed set of keys, a
    fixed list of record types, a priority for the types that need one, a
    name, a content and a time-to-live that is either automatic or in range. */
module Validation {
  import opened Wrappers
  import opened DnsModel

  /** The only keys a submitted record may carry. */
  const AllowedKeys: set<string> := {"type", "name", "content", "ttl", "priority", "proxied"}

  /** The record types the provider accepts, including its "read only" sentinel. */
  const ValidTypes: seq<string> := [
    "A", "AAAA", "CNAME", "HTTPS", "TXT", "SRV", "LOC", "MX", "NS", "CERT",
    "DNSKEY", "DS", "NAPTR", "SMIMEA", "SSHFP", "SVCB", "TLSA", "URI", "read only"]

  /** The types that need a priority. */
  const PriorityTypes: seq<string> := ["MX", "SRV", "URI"]

  const MaxPriority := 65535
  /** The time-to-live that means "automatic". */
  const AutoTtl := 1
  const MinTtl := 60
  const MaxTtl := 86400

  predicate TtlInRange(ttl: int) {
    ttl == AutoTtl || MinTtl <= ttl <= MaxTtl
  }

  /** Every rule of the validator holds. */
  predicate Valid(r: Record) {
    && KeySet(r) <= AllowedKeys
    && r.rtype.Some? && r.rtype.value in ValidTypes
    && (r.rtype.value in PriorityTypes ==> r.priority.Some? && 0 <= r.priority.value <= MaxPriority)
    && r.name.Some?
    && r.content.Some?
    && r.ttl.Some? && TtlInRange(r.ttl.value)
  }

  /** One reported problem; each stands for one of the validator's messages. */
  datatype Violation =
    | InvalidKey(key: string)
    | InvalidType
    | InvalidPriority
    | MissingPriority
    | MissingType
    | MissingName
    | MissingContent
    | InvalidTtl
    | MissingTtl

  /** Record r shows violation v. The priority rules apply only to a type that
      is in the list and needs a priority. */
  predicate Violates(r: Record, v: Violation) {
    match v
    case InvalidKey(k) => k in KeySet(r) && k !in AllowedKeys
    case InvalidType => r.rtype.Some? && r.rtype.value !in ValidTypes
    case InvalidPriority =>
      && r.rtype.Some? && r.rtype.value in ValidTypes && r.rtype.value in PriorityTypes
      && r.priority.Some? && !(0 <= r.priority.value <= MaxPriority)
    case MissingPriority =>
      && r.rtype.Some? && r.rtype.value in ValidTypes && r.rtype.value in PriorityTypes
      && r.priority.None?
    case MissingType => r.rtype.None?
    case MissingName => r.name.None?
    case MissingContent => r.content.None?
    case InvalidTtl => r.ttl.Some? && !TtlInRange(r.ttl.value)
    case MissingTtl => r.ttl.None?
  }

  /** A record is valid exactly when it shows no violation. */
  lemma ValidIffNoViolation(r: Record)
    ensures Valid(r) <==> forall v :: !Violates(r, v)
  {
    if !Valid(r) {
      if !(KeySet(r) <= AllowedKeys) {
        var k :| k in KeySet(r) && k !in AllowedKeys;
        assert Violates(r, InvalidKey(k));
      } else if r.rtype.None? {
        assert Violates(r, MissingType);
      } else if r.rtype.value !in ValidTypes {
        assert Violates(r, InvalidType);
      } else if r.rtype.value in PriorityTypes && r.priority.None? {
        assert Violates(r, MissingPriority);
      } else if r.rtype.value in PriorityTypes && !(0 <= r.priority.value <= MaxPriority) {
        assert Violates(r, InvalidPriority);
      } else if r.name.None? {
        assert Violates(r, MissingName);
      } else if r.content.None? {
        assert Violates(r, MissingContent);
      } else if r.ttl.None? {
        assert Violates(r, MissingTtl);
      } else {
        assert Violates(r, InvalidTtl);
      }
    }
  }

  /** An `id` key, or any key outside the named ones, makes a record invalid. */
  lemma {:induction false} IdOrExtraKeyInvalidates(r: Record)
    requires r.id.Some? || r.extra != {}
    ensures !Valid(r)
    ensures r.id.Some? ==> Violates(r, InvalidKey("id"))
  {
    if r.extra != {} {
      var k :| k in r.extra;
      assert k in KeySet(r) && k !in AllowedKeys;
    } else {
      assert "id" in KeySet(r);
    }
  }

  /** The checks of the validator in the order they run: each key in turn,
      then type and priority, name, content and time-to-live. The result
      lists every violation the record shows and no other. */
  method Audit(record: Record) returns (violations: seq<Violation>)
    ensures forall v :: v in violations <==> Violates(record, v)
    ensures violations == [] <==> Valid(record)
  {
    violations := [];
    var keys := KeySet(record);
    ghost var seen: set<string> := {};
    while keys != {}
      invariant keys + seen == KeySet(record) && keys !! seen
      invariant forall v :: v in violations <==> v.InvalidKey? && v.key in seen && v.key !in AllowedKeys
      decreases keys
    {
      var key :| key in keys;
      if key !in AllowedKeys {
        violations := violations + [InvalidKey(key)];
      }
      keys := keys - {key};
      seen := seen + {key};
    }
    var typeViolations := AuditType(record);
    var fieldViolations := AuditFields(record);
    violations := violations + typeViolations + fieldViolations;
    ValidIffNoViolation(record);
    if violations != [] {
      assert Violates(record, violations[0]);
    }
  }

  /** The type and priority checks: the violations among those five kinds. */
  method AuditType(record: Record) returns (violations: seq<Violation>)
    ensures forall v :: v in violations <==>
      Violates(record, v) && (v.InvalidType? || v.InvalidPriority? || v.MissingPriority? || v.MissingType?)
  {
    violations := [];
    if record.rtype.Some? {
      if record.rtype.value !in ValidTypes {
        violations := [InvalidType];
      } else if record.rtype.value in PriorityTypes {
        if record.priority.Some? {
          if !(0 <= record.priority.value <= MaxPriority) {
            violations := [InvalidPriority];
          }
        } else {
          violations := [MissingPriority];
        }
      }
    } else {
      violations := [MissingType];
    }
  }

  /** The name, content and time-to-live checks: the violations among those four kinds. */
  method AuditFields(record: Record) returns (violations: seq<Violation>)
    ensures forall v :: v in violations <==>
      Violates(record, v) && (v.MissingName? || v.MissingContent? || v.InvalidTtl? || v.MissingTtl?)
  {
    violations := [];
    if record.name.None? {
      violations := violations + [MissingName];
    }
    if record.content.None? {
      violations := violations + [MissingContent];
    }
    if record.ttl.Some? {
      if !TtlInRange(record.ttl.value) {
        violations := violations + [InvalidTtl];
      }
    } else {
      violations := violations + [MissingTtl];
    }
  }
}
