/**
 * isValidConf (pkg/k8shandler/util.go): four checks of the spec, each recorded as a condition
 * by a read-modify-write of the custom resource that may fail at any point.
 */
module Configuration {
  import opened Base
  import opened Conditions
  import opened Counting
  import opened NodeNames
  import Workload

  /** What comes of one read-modify-write: the read fails, the write fails or is lost, or it is stored. */
  datatype Reply = NotRead | NotWritten(applied: bool, now: int) | Written(now: int)

  const INVALID := [InvalidMasters, InvalidData, InvalidRedundancy, InvalidUUID]

  datatype Outcome = Valid | Invalid(check: nat) | Failed(check: nat)

  /** The spec, and the names in the status, that the checks look at. */
  datatype Subject = Subject(cluster: string, spec: seq<SpecNode>, policy: Policy, status: seq<StatusNames>)

  /** The i-th check. */
  ghost predicate Passes(s: Subject, i: nat) {
    match i
    case 0 => ValidMasterCount(|s.spec|, Int32(Sum(s.spec, Master)))
    case 1 => ValidDataCount(|s.spec|, Int32(Sum(s.spec, Data)))
    case 2 => ValidRedundancy(Int32(Sum(s.spec, Data)), s.policy)
    case _ => forall j :: 0 <= j < |s.status| ==> UUIDKept(s.cluster, s.status[j], s.spec)
  }

  function Reason(check: nat): string {
    if check == 3 then "Invalid Spec" else "Invalid Settings"
  }

  /** The message of a failed check; the UUID check explains what it found. */
  function Message(check: nat, v: Verdict): string {
    match check
    case 0 => "Invalid master nodes count. Please ensure there are no more than 3 total nodes with master roles"
    case 1 => "No data nodes requested. Please ensure there is at least 1 node with data roles"
    case 2 => "Wrong RedundancyPolicy selected. Choose different RedundancyPolicy or add more nodes with data roles"
    case _ => match v
      case Accepted => ""
      case InvalidName(name) => "Invalid name found for \"" + name + "\""
      case UnknownUUID(uuid) => "Previously used GenUUID \"" + uuid + "\" is no longer found in Spec.Nodes"
  }

  class Resource {
    const memory: ConditionList
    var stored: seq<ClusterCondition>

    constructor ()
      ensures fresh(memory) && memory.conditions == stored == []
    {
      memory := new ConditionList();
      stored := [];
    }

    /** updateConditionWithRetry: the in-memory copy is replaced by the stored one, then both get the condition. */
    method SetCondition(c: ClusterCondition, reply: Reply) returns (ok: bool)
      requires Proper(stored)
      modifies this, memory
      ensures ok == reply.Written?
      ensures Proper(stored) && (ok ==> memory.conditions == stored)
      ensures forall kind :: kind != c.kind ==> Lookup(stored, kind) == old(Lookup(stored, kind))
      ensures ok ==> match Lookup(stored, c.kind)
        case None => c.status == Workload.IsFalse
        case Some(d) => c.status != Workload.IsFalse && d.status == c.status && d.reason == c.reason && d.message == c.message
    {
      hide Proper, Find, Lookup, Put;
      if reply.NotRead? {
        return false;
      }
      memory.conditions := stored;
      ghost var stamped := Stamp(stored, c, reply.now);
      var _ := memory.UpdateClusterCondition(c, reply.now);
      forall kind ensures Lookup(memory.conditions, kind)
        == if kind != c.kind then Lookup(stored, kind) else if c.status == Workload.IsFalse then None else Some(stamped)
      {
        PutIsMapUpdate(stored, stamped, kind);
      }
      if reply.Written? || reply.applied {
        stored := memory.conditions;
      }
      ok := reply.Written?;
    }

    /** One block of isValidConf: record the result of a check and say whether to go on. */
    method Record(kind: ConditionType, valid: bool, reason: string, message: string, reply: Reply) returns (recorded: bool)
      requires Proper(stored)
      modifies this, memory
      ensures recorded == reply.Written?
      ensures Proper(stored) && (recorded ==> memory.conditions == stored)
      ensures forall other :: other != kind ==> Lookup(stored, other) == old(Lookup(stored, other))
      ensures recorded ==> if valid then Lookup(stored, kind) == None else
        var c := Lookup(stored, kind);
        c.Some? && c.value.status == Workload.IsTrue && c.value.reason == reason && c.value.message == message
    {
      hide Proper, Lookup;
      if valid {
        recorded := SetCondition(ClusterCondition(kind, Workload.IsFalse, "", "", 0), reply);
      } else {
        recorded := SetCondition(ClusterCondition(kind, Workload.IsTrue, reason, message, 0), reply);
      }
    }

    /** The first n conditions are absent. */
    ghost predicate Cleared(n: nat)
      requires n <= |INVALID|
      reads this
    {
      forall i :: 0 <= i < n ==> Lookup(stored, INVALID[i]) == None
    }

    /**
     * Success means that all checks pass and all four conditions are absent; a failed check
     * leaves its own condition present and the earlier ones absent; and when a write fails the
     * earlier ones are absent.  Other conditions are never touched.
     */
    method IsValidConf(s: Subject, replies: seq<Reply>) returns (outcome: Outcome)
      requires Proper(stored) && |replies| == |INVALID|
      modifies this, memory
      ensures Proper(stored)
      ensures outcome.Valid? <==> forall i :: 0 <= i < |INVALID| ==> Passes(s, i) && replies[i].Written?
      ensures outcome.Valid? ==> memory.conditions == stored && Cleared(|INVALID|)
      ensures outcome.Invalid? ==>
        && outcome.check < |INVALID| && !Passes(s, outcome.check) && replies[outcome.check].Written?
        && (forall i :: 0 <= i < outcome.check ==> Passes(s, i) && replies[i].Written?)
        && memory.conditions == stored && Cleared(outcome.check)
        && var c := Lookup(stored, INVALID[outcome.check]);
           c.Some? && c.value.status == Workload.IsTrue && c.value.reason == Reason(outcome.check)
      ensures outcome.Failed? ==>
        && outcome.check < |INVALID| && !replies[outcome.check].Written?
        && (forall i :: 0 <= i < outcome.check ==> Passes(s, i) && replies[i].Written?) && Cleared(outcome.check)
      ensures forall kind :: kind !in INVALID ==> Lookup(stored, kind) == old(Lookup(stored, kind))
    {
      hide Reason, Message, Proper, Lookup, ValidMasterCount, ValidDataCount, ValidRedundancy, UUIDKept, Sum;
      var masters := CountRole(s.spec, Master);
      var data := CountRole(s.spec, Data);
      var valid := ValidMasterCount(|s.spec|, masters);
      var recorded := Record(INVALID[0], valid, Reason(0), Message(0, Accepted), replies[0]);
      if !recorded {
        return Failed(0);
      } else if !valid {
        return Invalid(0);
      }
      valid := ValidDataCount(|s.spec|, data);
      recorded := Record(INVALID[1], valid, Reason(1), Message(1, Accepted), replies[1]);
      if !recorded {
        return Failed(1);
      } else if !valid {
        return Invalid(1);
      }
      valid := ValidRedundancy(data, s.policy);
      recorded := Record(INVALID[2], valid, Reason(2), Message(2, Accepted), replies[2]);
      if !recorded {
        return Failed(2);
      } else if !valid {
        return Invalid(2);
      }
      var verdict := HasValidUUIDs(s.cluster, s.status, s.spec);
      valid := verdict.Accepted?;
      recorded := Record(INVALID[3], valid, Reason(3), Message(3, verdict), replies[3]);
      if !recorded {
        return Failed(3);
      } else if !valid {
        return Invalid(3);
      }
      return Valid;
    }
  }
}
