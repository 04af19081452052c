/** Document classes of a package's files: one machine identity for the package
    (app/services/classification.py), and classification runs between which human
    overrides persist (app/services/package_assignment.py). */
module Assignments {
  import opened Wrappers
  import opened Lists

  datatype DocumentClass = Unrelated | Other(code: nat)

  // ---- one machine for the package -------------------------------------------------

  datatype Decision = Decision(
    documentClass: DocumentClass,
    machineCode: Option<string>,
    machineName: Option<string>,
    assemblyCode: Option<string>,
    confidence: real,
    reasons: seq<string>,
    identifiers: seq<string>,
    needsReview: bool)

  predicate Given(s: Option<string>) {
    s.Some? && s.value != ""
  }

  predicate GoesToMachine(d: Decision) {
    d.documentClass != Unrelated
  }

  /** Machine codes of the files that belong to a machine, in order. */
  function Codes(ds: seq<Decision>): seq<string> {
    if ds == [] then []
    else
      var last := ds[|ds| - 1];
      Codes(ds[..|ds| - 1]) + if GoesToMachine(last) && Given(last.machineCode) then [last.machineCode.value] else []
  }

  function NameFor(ds: seq<Decision>, code: string): Option<string> {
    if ds == [] then Some(code)
    else if ds[0].machineCode == Some(code) && Given(ds[0].machineName) then ds[0].machineName
    else NameFor(ds[1..], code)
  }

  function Identified(d: Decision, code: string, name: Option<string>): Decision {
    if !GoesToMachine(d) || d.machineCode == Some(code) then d
    else Decision(d.documentClass, Some(code), name, d.assemblyCode,
                  if d.confidence <= 0.88 then d.confidence else 0.88,
                  d.reasons + ["package-machine-identity"], d.identifiers, d.needsReview)
  }

  function IdentifiedAll(ds: seq<Decision>, code: string, name: Option<string>): seq<Decision> {
    seq(|ds|, i requires 0 <= i < |ds| => Identified(ds[i], code, name))
  }

  function PackageIdentity(ds: seq<Decision>): seq<Decision> {
    var unique := Once(Codes(ds));
    if |unique| != 1 then ds else IdentifiedAll(ds, unique[0], NameFor(ds, unique[0]))
  }

  /** `apply_package_identity`. */
  method ApplyPackageIdentity(ds: seq<Decision>) returns (updated: seq<Decision>)
    ensures updated == PackageIdentity(ds)
  {
    var codes: seq<string>, unique: seq<string> := [], [];
    for i := 0 to |ds|
      invariant codes == Codes(ds[..i]) && unique == Once(codes)
    {
      assert ds[..i + 1][..i] == ds[..i];
      if GoesToMachine(ds[i]) && Given(ds[i].machineCode) {
        var code := ds[i].machineCode.value;
        assert (codes + [code])[..|codes|] == codes;
        codes := codes + [code];
        if code !in unique {
          unique := unique + [code];
        }
      } else {
        assert Codes(ds[..i]) + [] == Codes(ds[..i]);
      }
    }
    assert ds[..|ds|] == ds;
    if |unique| != 1 {
      return ds;
    }
    var name := NameFor(ds, unique[0]);
    updated := [];
    for i := 0 to |ds|
      invariant updated == IdentifiedAll(ds, unique[0], name)[..i]
    {
      updated := updated + [Identified(ds[i], unique[0], name)];
    }
  }

  lemma {:induction false} CodesMembers(ds: seq<Decision>)
    ensures forall c :: c in Codes(ds) <==>
            exists d :: d in ds && GoesToMachine(d) && c != "" && d.machineCode == Some(c)
  {
    if ds != [] {
      var before, last := ds[..|ds| - 1], ds[|ds| - 1];
      CodesMembers(before);
      assert ds == before + [last];
      assert last in ds && forall d :: d in before ==> d in ds;
    }
  }

  /** The one code of the package, when it has exactly one. */
  lemma OneCode(ds: seq<Decision>, code: string)
    ensures Once(Codes(ds)) == [code] <==>
            && (exists d :: d in ds && GoesToMachine(d) && code != "" && d.machineCode == Some(code))
            && (forall d :: d in ds && GoesToMachine(d) && Given(d.machineCode) ==> d.machineCode == Some(code))
  {
    var codes := Codes(ds);
    OnceMembers(codes);
    CodesMembers(ds);
    forall d | d in ds && GoesToMachine(d) && Given(d.machineCode) ensures d.machineCode.value in codes {}
    if code in codes && forall c :: c in codes ==> c == code { OnlyCode(codes, code); }
  }

  lemma {:induction false} OnlyCode(codes: seq<string>, code: string)
    requires forall c :: c in codes ==> c == code
    ensures Once(codes) == if codes == [] then [] else [code]
  {
    if codes != [] {
      var before, last := codes[..|codes| - 1], codes[|codes| - 1];
      forall c | c in before ensures c == code {
        assert c in codes;
      }
      assert last in codes;
      OnlyCode(before, code);
    }
  }

  /** After it, either nothing was shared and nothing changed, or every file that goes
      to a machine names the same one; files that do not are untouched. */
  lemma IdentityIsShared(ds: seq<Decision>, i: nat)
    requires i < |ds|
    ensures |PackageIdentity(ds)| == |ds|
    ensures PackageIdentity(ds)[i].documentClass == ds[i].documentClass
            && PackageIdentity(ds)[i].assemblyCode == ds[i].assemblyCode
    ensures !GoesToMachine(ds[i]) || (exists code :: ds[i].machineCode == Some(code) && code != "") ==>
            PackageIdentity(ds)[i] == ds[i]
    ensures PackageIdentity(ds) == ds
            || exists code :: Once(Codes(ds)) == [code]
                              && forall k :: 0 <= k < |ds| && GoesToMachine(ds[k]) ==>
                                   PackageIdentity(ds)[k].machineCode == Some(code)
  {
    var unique := Once(Codes(ds));
    if |unique| == 1 {
      assert unique == [unique[0]];
      OneCode(ds, unique[0]);
      assert ds[i] in ds;
    }
  }

  /** What sharing writes into a decision: the code, its first given name or else the code
      for a name, one reason more, and no more confidence than 0.88. */
  ghost predicate SharedAs(d: Decision, was: Decision, code: string, name: string) {
    if was.documentClass == Unrelated || was.machineCode == Some(code) then d == was
    else
      && d.machineCode == Some(code) && d.machineName == Some(name)
      && d.documentClass == was.documentClass && d.assemblyCode == was.assemblyCode
      && d.identifiers == was.identifiers && d.needsReview == was.needsReview
      && d.reasons == was.reasons + ["package-machine-identity"]
      && d.confidence <= was.confidence && d.confidence <= 0.88
      && (d.confidence == was.confidence || d.confidence == 0.88)
  }

  predicate Names(d: Decision, code: string) {
    d.machineCode == Some(code) && d.machineName.Some? && d.machineName.value != ""
  }

  ghost predicate IsName(ds: seq<Decision>, code: string, name: string) {
    if exists i :: 0 <= i < |ds| && Names(ds[i], code)
    then exists i :: 0 <= i < |ds| && Names(ds[i], code) && ds[i].machineName.value == name
                     && forall k :: 0 <= k < i ==> !Names(ds[k], code)
    else name == code
  }

  lemma {:induction false} NameIsFirst(ds: seq<Decision>, code: string)
    ensures NameFor(ds, code).Some? && IsName(ds, code, NameFor(ds, code).value)
  {
    if ds != [] && !Names(ds[0], code) {
      NameIsFirst(ds[1..], code);
      assert forall i :: 0 < i < |ds| ==> ds[i] == ds[1..][i - 1];
      if i :| 0 <= i < |ds[1..]| && Names(ds[1..][i], code) && ds[1..][i].machineName == NameFor(ds, code)
              && forall k :: 0 <= k < i ==> !Names(ds[1..][k], code) {
        assert Names(ds[i + 1], code);
      }
    }
  }

  /** The files that go to a machine and name one name this code, and it is not empty. */
  ghost predicate TheCode(ds: seq<Decision>, code: string) {
    && (exists i :: 0 <= i < |ds| && ds[i].documentClass != Unrelated && ds[i].machineCode == Some(code) && code != "")
    && (forall i :: 0 <= i < |ds| && ds[i].documentClass != Unrelated && ds[i].machineCode.Some?
                    && ds[i].machineCode.value != "" ==>
          ds[i].machineCode.value == code)
  }

  /** A package with one code shares it, and no other package is touched. */
  lemma SharingOutcome(ds: seq<Decision>)
    ensures var after := PackageIdentity(ds);
            && |after| == |ds|
            && (if exists code :: TheCode(ds, code)
                then exists code, name :: TheCode(ds, code) && IsName(ds, code, name)
                                          && forall i :: 0 <= i < |ds| ==> SharedAs(after[i], ds[i], code, name)
                else after == ds)
  {
    var unique := Once(Codes(ds));
    forall code: string ensures unique == [code] <==> TheCode(ds, code) {
      OneCode(ds, code);
    }
    if |unique| == 1 {
      assert unique == [unique[0]];
      NameIsFirst(ds, unique[0]);
      var name := NameFor(ds, unique[0]).value;
      assert forall i :: 0 <= i < |ds| ==> SharedAs(PackageIdentity(ds)[i], ds[i], unique[0], name);
    }
  }

  /** Sharing an identity that is shared already changes nothing. */
  lemma PackageIdentityIsIdempotent(ds: seq<Decision>)
    ensures PackageIdentity(PackageIdentity(ds)) == PackageIdentity(ds)
  {
    var unique := Once(Codes(ds));
    if |unique| == 1 {
      var code := unique[0];
      assert unique == [code];
      OneCode(ds, code);
      IdentifiedHasOneCode(ds, code, NameFor(ds, code));
      IdentifiedIsFixed(ds, code, NameFor(ds, code), NameFor(IdentifiedAll(ds, code, NameFor(ds, code)), code));
    }
  }

  lemma IdentifiedHasOneCode(ds: seq<Decision>, code: string, name: Option<string>)
    requires Once(Codes(ds)) == [code]
    ensures Once(Codes(IdentifiedAll(ds, code, name))) == [code]
  {
    var once := IdentifiedAll(ds, code, name);
    OneCode(ds, code);
    var d :| d in ds && GoesToMachine(d) && code != "" && d.machineCode == Some(code);
    var i :| 0 <= i < |ds| && ds[i] == d;
    assert once[i] == d && once[i] in once;
    forall d | d in once && GoesToMachine(d) ensures d.machineCode == Some(code) {
      var k :| 0 <= k < |once| && once[k] == d;
    }
    OneCode(once, code);
  }

  lemma IdentifiedIsFixed(ds: seq<Decision>, code: string, name: Option<string>, again: Option<string>)
    ensures IdentifiedAll(IdentifiedAll(ds, code, name), code, again) == IdentifiedAll(ds, code, name)
  {
  }

  // ---- assignments ---------------------------------------------------------------------

  const CLASSIFIER_METHOD := "deterministic_metadata"
  const OVERRIDE_METHOD := "human_override"

  datatype State = Proposed | NeedsReview | Accepted | Superseded

  datatype Assignment = Assignment(
    id: nat,
    path: Option<string>,
    documentClass: DocumentClass,
    machine: Option<nat>,
    assembly: Option<nat>,
    state: State,
    producer: string,    // the `method` column
    createdAt: nat)

  predicate Active(a: Assignment) { a.state != Superseded }

  predicate IsAt(a: Assignment, path: Option<string>) { Active(a) && a.path == path }

  /** `_current_for_path`: the first of the latest active rows of the path. */
  function Current(rows: seq<Assignment>, path: Option<string>): (r: Option<nat>)
    ensures r.Some? ==> r.value < |rows| && IsAt(rows[r.value], path)
    ensures r.None? ==> forall i :: 0 <= i < |rows| ==> !IsAt(rows[i], path)
  {
    if rows == [] then None
    else
      var n := |rows| - 1;
      var before := Current(rows[..n], path);
      if !IsAt(rows[n], path) then before
      else if before.Some? && rows[before.value].createdAt >= rows[n].createdAt then before
      else Some(n)
  }

  /** The tables of one package. */
  datatype Tables = Held(rows: seq<Assignment>, machines: map<string, nat>, assemblies: map<string, nat>, nextId: nat)

  datatype Input = Input(path: string, decision: Decision)

  /** Get or create, by code. */
  function MachineFor(t: Tables, d: Decision): (Option<nat>, Tables) {
    if !GoesToMachine(d) || !Given(d.machineCode) then (None, t)
    else if d.machineCode.value in t.machines then (Some(t.machines[d.machineCode.value]), t)
    else (Some(t.nextId), t.(machines := t.machines[d.machineCode.value := t.nextId], nextId := t.nextId + 1))
  }

  function AssemblyFor(t: Tables, machine: Option<nat>, d: Decision): (Option<nat>, Tables) {
    if machine.None? || !Given(d.assemblyCode) then (None, t)
    else if d.assemblyCode.value in t.assemblies then (Some(t.assemblies[d.assemblyCode.value]), t)
    else (Some(t.nextId), t.(assemblies := t.assemblies[d.assemblyCode.value := t.nextId], nextId := t.nextId + 1))
  }

  predicate Agrees(a: Assignment, d: Decision, machine: Option<nat>, assembly: Option<nat>) {
    a.documentClass == d.documentClass && a.machine == machine && a.assembly == assembly
    && a.producer == CLASSIFIER_METHOD
  }

  function Retired(rows: seq<Assignment>, i: nat): seq<Assignment>
    requires i < |rows|
  {
    rows[i := rows[i].(state := Superseded)]
  }

  function NewRow(t: Tables, input: Input, machine: Option<nat>, assembly: Option<nat>, now: nat): Assignment {
    Assignment(t.nextId, Some(input.path), input.decision.documentClass, machine, assembly,
               if input.decision.needsReview then NeedsReview else Proposed, CLASSIFIER_METHOD, now)
  }

  /** One file of a classification run. */
  function Assign(t: Tables, input: Input, now: nat): Tables {
    var current := Current(t.rows, Some(input.path));
    if current.Some? && t.rows[current.value].producer == OVERRIDE_METHOD then t
    else
      var (machine, t1) := MachineFor(t, input.decision);
      var (assembly, t2) := AssemblyFor(t1, machine, input.decision);
      if current.Some? && Agrees(t.rows[current.value], input.decision, machine, assembly) then t2
      else
        var rows := if current.Some? && t.rows[current.value].producer == CLASSIFIER_METHOD
            then Retired(t.rows, current.value) else t.rows;
        t2.(rows := rows + [NewRow(t2, input, machine, assembly, now)], nextId := t2.nextId + 1)
  }

  function AssignAll(t: Tables, inputs: seq<Input>, now: nat): Tables {
    if inputs == [] then t else Assign(AssignAll(t, inputs[..|inputs| - 1], now), inputs[|inputs| - 1], now)
  }

  /** What a reviewer replaces the row with. */
  function Override(t: Tables, i: nat, documentClass: DocumentClass, machine: Option<nat>, assembly: Option<nat>,
      now: nat): Tables
    requires i < |t.rows|
  {
    t.(rows := Retired(t.rows, i)
       + [Assignment(t.nextId, t.rows[i].path, documentClass, machine, assembly, Accepted, OVERRIDE_METHOD, now)],
    nextId := t.nextId + 1)
  }

  /** A correction: the old row is superseded and otherwise as it was, as are all others;
      the new one has what was given, and the old row's values where nothing was. */
  ghost predicate CorrectedAs(
    before: seq<Assignment>, after: seq<Assignment>, i: nat, documentClass: Option<DocumentClass>,
    machine: Option<Option<nat>>, assembly: Option<Option<nat>>, now: nat)
  {
    && i < |before| && |after| == |before| + 1
    && (forall k :: 0 <= k < |before| && k != i ==> after[k] == before[k])
    && after[i].state == Superseded && after[i] == before[i].(state := Superseded)
    && var row := after[|before|];
       && row.path == before[i].path && row.state == Accepted && row.producer == OVERRIDE_METHOD && row.createdAt == now
       && (documentClass.Some? ==> row.documentClass == documentClass.value)
       && (documentClass.None? ==> row.documentClass == before[i].documentClass)
       && (machine.Some? ==> row.machine == machine.value) && (machine.None? ==> row.machine == before[i].machine)
       && (assembly.Some? ==> row.assembly == assembly.value) && (assembly.None? ==> row.assembly == before[i].assembly)
  }

  /** The machine or assembly of a code: the one that has it, or a new one, and no other
      code is touched. */
  ghost predicate Ensured(before: map<string, nat>, after: map<string, nat>, code: string, id: nat, next: nat,
      next': nat)
  {
    && code in after && after[code] == id
    && (forall c :: c in before ==> c in after && after[c] == before[c])
    && (forall c :: c in after ==> c in before || c == code)
    && if code in before then next' == next else id == next && next' == next + 1
  }

  /** What one file of a classification leaves of the tables, told row by row: nothing of
      the sort where a reviewer has decided, no new row where the active one says the same,
      and otherwise a new row, for which an active row of the classifier's is superseded. */
  ghost predicate AssignedAs(before: Tables, after: Tables, input: Input, now: nat) {
    var current, d := Current(before.rows, Some(input.path)), input.decision;
    if current.Some? && before.rows[current.value].producer == OVERRIDE_METHOD then after == before
    else
      exists machine, assembly, middle, next ::
        && MachineEnsured(before, after, d, machine, middle)
        && AssemblyEnsured(before, after, d, machine, assembly, middle, next)
        && RowsAssigned(before, after, current, input, machine, assembly, next, now)
  }

  ghost predicate MachineEnsured(before: Tables, after: Tables, d: Decision, machine: Option<nat>, middle: nat) {
    if d.documentClass == Unrelated || d.machineCode == None || d.machineCode == Some("")
    then machine == None && after.machines == before.machines && middle == before.nextId
    else machine.Some?
         && Ensured(before.machines, after.machines, d.machineCode.value, machine.value, before.nextId, middle)
  }

  ghost predicate AssemblyEnsured(before: Tables, after: Tables, d: Decision, machine: Option<nat>,
      assembly: Option<nat>, middle: nat, next: nat)
  {
    if machine.None? || d.assemblyCode == None || d.assemblyCode == Some("")
    then assembly == None && after.assemblies == before.assemblies && next == middle
    else assembly.Some? && Ensured(before.assemblies, after.assemblies, d.assemblyCode.value, assembly.value, middle,
        next)
  }

  ghost predicate RowsAssigned(before: Tables, after: Tables, current: Option<nat>, input: Input,
      machine: Option<nat>, assembly: Option<nat>, next: nat, now: nat)
  {
    if current.Some? && current.value < |before.rows|
        && SaysTheSame(before.rows[current.value], input.decision, machine, assembly)
    then after.rows == before.rows && after.nextId == next
    else AddedAs(before.rows, after.rows, current, input, machine, assembly, now)
         && after.rows[|before.rows|].id == next && after.nextId == next + 1
  }

  predicate SaysTheSame(a: Assignment, d: Decision, machine: Option<nat>, assembly: Option<nat>) {
    && a.producer == CLASSIFIER_METHOD
    && a.documentClass == d.documentClass && a.machine == machine && a.assembly == assembly
  }

  ghost predicate AddedAs(before: seq<Assignment>, after: seq<Assignment>, current: Option<nat>, input: Input,
      machine: Option<nat>, assembly: Option<nat>, now: nat)
  {
    && |after| == |before| + 1
    && (forall k :: 0 <= k < |before| && current != Some(k) ==> after[k] == before[k])
    && (forall k :: 0 <= k < |before| && current == Some(k) ==>
          after[k] == if before[k].producer == CLASSIFIER_METHOD then before[k].(state := Superseded) else before[k])
    && var row := after[|before|];
       && row.path == Some(input.path) && row.documentClass == input.decision.documentClass
       && row.machine == machine && row.assembly == assembly && row.producer == CLASSIFIER_METHOD
       && row.state == (if input.decision.needsReview then NeedsReview else Proposed) && row.createdAt == now
  }

  lemma MachineOutcome(t: Tables, after: Tables, d: Decision)
    requires after.machines == MachineFor(t, d).1.machines
    ensures var (machine, t1) := MachineFor(t, d);
            MachineEnsured(t, after, d, machine, t1.nextId) && t1.assemblies == t.assemblies && t1.rows == t.rows
  {
  }

  lemma AssemblyOutcome(t: Tables, t1: Tables, after: Tables, machine: Option<nat>, d: Decision)
    requires t1.assemblies == t.assemblies && after.assemblies == AssemblyFor(t1, machine, d).1.assemblies
    ensures var (assembly, t2) := AssemblyFor(t1, machine, d);
            && AssemblyEnsured(t, after, d, machine, assembly, t1.nextId, t2.nextId)
            && t2.machines == t1.machines && t2.rows == t1.rows
  {
  }

  lemma AssignOutcome(t: Tables, input: Input, now: nat)
    ensures AssignedAs(t, Assign(t, input, now), input, now)
  {
    var current, after := Current(t.rows, Some(input.path)), Assign(t, input, now);
    if !(current.Some? && t.rows[current.value].producer == OVERRIDE_METHOD) {
      var (machine, t1) := MachineFor(t, input.decision);
      var (assembly, t2) := AssemblyFor(t1, machine, input.decision);
      assert after.machines == t2.machines && after.assemblies == t2.assemblies;
      AssemblyOutcome(t, t1, after, machine, input.decision);
      MachineOutcome(t, after, input.decision);
      assert RowsAssigned(t, after, current, input, machine, assembly, t2.nextId, now);
    }
  }

  /** The active row of a path: the first of the latest. */
  lemma {:induction false} CurrentIsLatest(rows: seq<Assignment>, path: Option<string>)
    ensures Current(rows, path) == None
            <==> forall k :: 0 <= k < |rows| ==> rows[k].state == Superseded || rows[k].path != path
    ensures Current(rows, path).Some? ==>
              var i := Current(rows, path).value;
              && rows[i].state != Superseded && rows[i].path == path
              && forall k :: 0 <= k < |rows| && rows[k].state != Superseded && rows[k].path == path ==>
                   rows[k].createdAt <= rows[i].createdAt && (k < i ==> rows[k].createdAt < rows[i].createdAt)
  {
    if rows != [] { CurrentIsLatest(rows[..|rows| - 1], path); }
  }

  // ---- as the tables hold them ------------------------------------------------------------

  class Package {
    var rows: seq<Assignment>
    var machines: map<string, nat>
    var assemblies: map<string, nat>
    var nextId: nat

    constructor ()
      ensures Tables() == Held([], map[], map[], 0)
    {
      rows, machines, assemblies, nextId := [], map[], map[], 0;
    }

    function Tables(): Tables
      reads this
    {
      Held(rows, machines, assemblies, nextId)
    }

    method EnsureMachine(d: Decision) returns (machine: Option<nat>)
      modifies this`machines, this`nextId
      ensures (machine, Tables()) == MachineFor(old(Tables()), d)
    {
      if !GoesToMachine(d) || !Given(d.machineCode) {
        return None;
      }
      if d.machineCode.value !in machines {
        machines := machines[d.machineCode.value := nextId];
        nextId := nextId + 1;
      }
      machine := Some(machines[d.machineCode.value]);
    }

    method EnsureAssembly(machine: Option<nat>, d: Decision) returns (assembly: Option<nat>)
      modifies this`assemblies, this`nextId
      ensures (assembly, Tables()) == AssemblyFor(old(Tables()), machine, d)
    {
      if machine.None? || !Given(d.assemblyCode) {
        return None;
      }
      if d.assemblyCode.value !in assemblies {
        assemblies := assemblies[d.assemblyCode.value := nextId];
        nextId := nextId + 1;
      }
      assembly := Some(assemblies[d.assemblyCode.value]);
    }

    /** `classify_and_assign_package`, from the decisions on; returns how many rows it created. */
    method ClassifyAndAssign(inputs: seq<Input>, now: nat) returns (created: nat)
      modifies this
      ensures Tables() == AssignAll(old(Tables()), inputs, now)
      ensures |rows| == |old(rows)| + created
    {
      created := 0;
      for i := 0 to |inputs|
        invariant Tables() == AssignAll(old(Tables()), inputs[..i], now)
        invariant |rows| == |old(rows)| + created
      {
        assert inputs[..i + 1][..i] == inputs[..i];
        var added := AssignOne(inputs[i], now);
        if added {
          created := created + 1;
        }
      }
      assert inputs[..|inputs|] == inputs;
    }

    /** The body of its loop: whether the file got a new row. */
    method AssignOne(input: Input, now: nat) returns (added: bool)
      modifies this
      ensures Tables() == Assign(old(Tables()), input, now)
      ensures AssignedAs(old(Tables()), Tables(), input, now)
      ensures |rows| == |old(rows)| + if added then 1 else 0
    {
      AssignOutcome(Tables(), input, now);
      var current := Current(rows, Some(input.path));
      if current.Some? && rows[current.value].producer == OVERRIDE_METHOD {
        return false;
      }
      var machine := EnsureMachine(input.decision);
      var assembly := EnsureAssembly(machine, input.decision);
      if current.Some? && Agrees(rows[current.value], input.decision, machine, assembly) {
        return false;
      }
      if current.Some? && rows[current.value].producer == CLASSIFIER_METHOD {
        rows := Retired(rows, current.value);
      }
      rows := rows + [NewRow(Tables(), input, machine, assembly, now)];
      nextId := nextId + 1;
      return true;
    }

    /** `override_assignment`: the row stays, superseded; absent arguments keep its values. */
    method OverrideAssignment(id: nat, documentClass: Option<DocumentClass>, machine: Option<Option<nat>>,
        assembly: Option<Option<nat>>, now: nat)
      returns (r: Option<nat>)
      modifies this
      ensures r.None? <==> forall a :: a in old(rows) ==> a.id != id
      ensures r.None? ==> Tables() == old(Tables())
      ensures r.Some? ==>
                && r.value < |old(rows)| && old(rows)[r.value].id == id
                && var was := old(rows)[r.value];
                   Tables() == Override(old(Tables()), r.value,
                                        if documentClass.Some? then documentClass.value else was.documentClass,
                                        if machine.Some? then machine.value else was.machine,
                                        if assembly.Some? then assembly.value else was.assembly, now)
      ensures r.Some? ==>
                && CorrectedAs(old(rows), rows, r.value, documentClass, machine, assembly, now)
                && rows[|old(rows)|].id == old(nextId) && nextId == old(nextId) + 1
                && machines == old(machines) && assemblies == old(assemblies)
      ensures r.Some? && UniquePaths(old(rows)) && Active(old(rows)[r.value]) ==>
                UniquePaths(rows) && Current(rows, old(rows)[r.value].path) == Some(|old(rows)|)
    {
      var i := 0;
      while i < |rows| && rows[i].id != id
        invariant i <= |rows| && forall k :: 0 <= k < i ==> rows[k].id != id
      {
        i := i + 1;
      }
      if i == |rows| {
        return None;
      }
      var was := rows[i];
      var newClass := if documentClass.Some? then documentClass.value else was.documentClass;
      var newMachine := if machine.Some? then machine.value else was.machine;
      var newAssembly := if assembly.Some? then assembly.value else was.assembly;
      OverrideOutcome(Tables(), i, documentClass, machine, assembly, now, newClass, newMachine, newAssembly);
      if UniquePaths(rows) && Active(was) {
        CorrectionIsCurrent(Tables(), i, newClass, newMachine, newAssembly, now);
      }
      rows := Retired(rows, i);
      rows := rows + [Assignment(nextId, was.path, newClass, newMachine, newAssembly, Accepted, OVERRIDE_METHOD, now)];
      nextId := nextId + 1;
      return Some(i);
    }
  }

  // ---- at most one active row a path ---------------------------------------------------------

  ghost predicate UniquePaths(rows: seq<Assignment>) {
    forall i, j :: 0 <= i < j < |rows| && Active(rows[i]) && Active(rows[j]) ==> rows[i].path != rows[j].path
  }

  predicate Foreign(a: Assignment) {
    a.producer != CLASSIFIER_METHOD && a.producer != OVERRIDE_METHOD
  }

  ghost predicate NoForeign(rows: seq<Assignment>) {
    forall i :: 0 <= i < |rows| && Active(rows[i]) ==> !Foreign(rows[i])
  }

  lemma {:induction false} OnlyOneIsCurrent(rows: seq<Assignment>, i: nat)
    requires UniquePaths(rows) && i < |rows| && Active(rows[i])
    ensures Current(rows, rows[i].path) == Some(i)
  {
  }

  /** Classifying one file leaves one active row a path unless the file's active row came
      from neither the classifier nor an override: then exactly it does not. */
  lemma AssignKeepsUniqueness(t: Tables, input: Input, now: nat)
    requires UniquePaths(t.rows)
    ensures UniquePaths(Assign(t, input, now).rows) <==>
            !exists i :: 0 <= i < |t.rows| && IsAt(t.rows[i], Some(input.path)) && Foreign(t.rows[i])
  {
    var current, after := Current(t.rows, Some(input.path)), Assign(t, input, now).rows;
    if i :| 0 <= i < |t.rows| && IsAt(t.rows[i], Some(input.path)) && Foreign(t.rows[i]) {
      OnlyOneIsCurrent(t.rows, i);
      assert after[i] == t.rows[i] && IsAt(after[|after| - 1], Some(input.path)) && i < |after| - 1;
    } else if current.Some? {
      OnlyOneIsCurrent(t.rows, current.value);
      forall k | 0 <= k < |t.rows| && k != current.value ensures !IsAt(t.rows[k], Some(input.path)) {}
    }
  }

  /** An override leaves one active row a path exactly when no other row than the
      overridden one is active there: so always for the active row. */
  lemma OverrideKeepsUniqueness(t: Tables, i: nat, c: DocumentClass, machine: Option<nat>, assembly: Option<nat>,
      now: nat)
    requires UniquePaths(t.rows) && i < |t.rows|
    ensures UniquePaths(Override(t, i, c, machine, assembly, now).rows) <==>
            forall k :: 0 <= k < |t.rows| && k != i ==> !IsAt(t.rows[k], t.rows[i].path)
    ensures Active(t.rows[i]) ==> UniquePaths(Override(t, i, c, machine, assembly, now).rows)
  {
    var after := Override(t, i, c, machine, assembly, now).rows;
    var n := |t.rows|;
    assert Active(after[n]) && after[n].path == t.rows[i].path;
    assert forall k :: 0 <= k < n && k != i ==> after[k] == t.rows[k];
    if k :| 0 <= k < n && k != i && IsAt(t.rows[k], t.rows[i].path) {
      assert Active(after[k]) && after[k].path == after[n].path;
    }
  }

  /** The same row corrected twice: whatever the table was, both corrections stay active. */
  lemma CorrectingTwiceBreaksUniqueness(t: Tables, i: nat, c: DocumentClass, machine: Option<nat>,
      assembly: Option<nat>, now: nat, later: nat)
    requires i < |t.rows|
    ensures var once := Override(t, i, c, machine, assembly, now);
            !Active(once.rows[i]) && !UniquePaths(Override(once, i, c, machine, assembly, later).rows)
  {
    var once, n := Override(t, i, c, machine, assembly, now), |t.rows|;
    var twice := Override(once, i, c, machine, assembly, later).rows;
    assert once.rows[n].path == t.rows[i].path && Active(once.rows[n]);
    assert twice[n] == once.rows[n] && Active(twice[n + 1]) && twice[n + 1].path == twice[n].path;
  }

  /** What a correction of an active row adds is the active row of its path. */
  lemma CorrectionIsCurrent(t: Tables, i: nat, c: DocumentClass, machine: Option<nat>, assembly: Option<nat>, now: nat)
    requires UniquePaths(t.rows) && i < |t.rows| && Active(t.rows[i])
    ensures var after := Override(t, i, c, machine, assembly, now).rows;
            UniquePaths(after) && Current(after, t.rows[i].path) == Some(|t.rows|)
  {
    OverrideKeepsUniqueness(t, i, c, machine, assembly, now);
    OnlyOneIsCurrent(Override(t, i, c, machine, assembly, now).rows, |t.rows|);
  }

  lemma OverrideOutcome(
    t: Tables, i: nat, documentClass: Option<DocumentClass>, machine: Option<Option<nat>>,
        assembly: Option<Option<nat>>,
    now: nat, c: DocumentClass, m: Option<nat>, a: Option<nat>)
    requires i < |t.rows|
    requires c == if documentClass.Some? then documentClass.value else t.rows[i].documentClass
    requires m == if machine.Some? then machine.value else t.rows[i].machine
    requires a == if assembly.Some? then assembly.value else t.rows[i].assembly
    ensures CorrectedAs(t.rows, Override(t, i, c, m, a, now).rows, i, documentClass, machine, assembly, now)
  {
  }

  /** Ids are given out in ascending order, so a new row's is its own. */
  ghost predicate IdsBelow(t: Tables) {
    && (forall k :: 0 <= k < |t.rows| ==> t.rows[k].id < t.nextId)
    && (forall i, k :: 0 <= i < k < |t.rows| ==> t.rows[i].id != t.rows[k].id)
  }

  lemma AssignKeepsIds(t: Tables, input: Input, now: nat)
    requires IdsBelow(t)
    ensures IdsBelow(Assign(t, input, now))
  {
  }

  lemma OverrideKeepsIds(t: Tables, i: nat, c: DocumentClass, machine: Option<nat>, assembly: Option<nat>, now: nat)
    requires IdsBelow(t) && i < |t.rows|
    ensures IdsBelow(Override(t, i, c, machine, assembly, now))
  {
  }

  lemma AssignAddsNoForeign(t: Tables, input: Input, now: nat)
    requires NoForeign(t.rows)
    ensures NoForeign(Assign(t, input, now).rows)
  {
  }

  // ---- whole runs ------------------------------------------------------------------------------

  datatype Step =
    | Classify(inputs: seq<Input>, now: nat)
    | Correct(row: nat, documentClass: DocumentClass, machine: Option<nat>, assembly: Option<nat>, now: nat)

  /** Reviewers correct active rows. */
  predicate Allowed(t: Tables, step: Step) {
    step.Correct? ==> step.row < |t.rows| && Active(t.rows[step.row])
  }

  function Apply(t: Tables, step: Step): Tables
    requires Allowed(t, step)
  {
    match step
    case Classify(inputs, now) => AssignAll(t, inputs, now)
    case Correct(row, c, machine, assembly, now) => Override(t, row, c, machine, assembly, now)
  }

  predicate CanRun(t: Tables, steps: seq<Step>)
    decreases |steps|
  {
    steps == [] || (Allowed(t, steps[0]) && CanRun(Apply(t, steps[0]), steps[1..]))
  }

  function Run(t: Tables, steps: seq<Step>): Tables
    requires CanRun(t, steps)
    decreases |steps|
  {
    if steps == [] then t else Run(Apply(t, steps[0]), steps[1..])
  }

  ghost predicate Settleable(rows: seq<Assignment>) {
    UniquePaths(rows) && NoForeign(rows)
  }

  lemma {:induction false} AssignAllKeepsUniqueness(t: Tables, inputs: seq<Input>, now: nat)
    requires Settleable(t.rows)
    ensures Settleable(AssignAll(t, inputs, now).rows)
  {
    if inputs != [] {
      var n := |inputs| - 1;
      AssignAllKeepsUniqueness(t, inputs[..n], now);
      AssignKeepsUniqueness(AssignAll(t, inputs[..n], now), inputs[n], now);
      AssignAddsNoForeign(AssignAll(t, inputs[..n], now), inputs[n], now);
    }
  }

  /** From an unassigned package, over any run of classifications and corrections of
      active rows, every path has at most one active row. */
  lemma {:induction false} RunsKeepUniqueness(t: Tables, steps: seq<Step>)
    requires Settleable(t.rows) && CanRun(t, steps)
    ensures Settleable(Run(t, steps).rows)
    decreases |steps|
  {
    if steps != [] {
      match steps[0] {
        case Classify(inputs, now) => AssignAllKeepsUniqueness(t, inputs, now);
        case Correct(row, c, machine, assembly, now) => OverrideKeepsUniqueness(t, row, c, machine, assembly, now);
      }
      RunsKeepUniqueness(Apply(t, steps[0]), steps[1..]);
    }
  }

  /** A run from the unassigned package after which a correction that names a superseded
      row, which nothing prevents, leaves two active rows at one path. */
  lemma SupersededRowsCanBeCorrected(input: Input, c: DocumentClass, now: nat)
    ensures var start, steps := Held([], map[], map[], 0), [Classify([input], now), Correct(0, c, None, None, now)];
            && CanRun(start, steps)
            && var t := Run(start, steps);
               |t.rows| == 2 && !Active(t.rows[0]) && UniquePaths(t.rows)
               && !UniquePaths(Override(t, 0, c, None, None, now).rows)
  {
    var start, correct := Held([], map[], map[], 0), Correct(0, c, None, None, now);
    var steps := [Classify([input], now), correct];
    var one := Assign(start, input, now);
    assert [input][..0] == [] && AssignAll(start, [input], now) == one;
    assert |one.rows| == 1 && Active(one.rows[0]);
    assert steps[1..] == [correct] && [correct][1..] == [];
    assert Run(one, [correct]) == Override(one, 0, c, None, None, now);
    CorrectingTwiceBreaksUniqueness(one, 0, c, None, None, now, now);
    RunsKeepUniqueness(start, steps);
  }

  /** Over any run, no two rows have the same id. */
  lemma {:induction false} RunsKeepIds(t: Tables, steps: seq<Step>)
    requires IdsBelow(t) && CanRun(t, steps)
    ensures IdsBelow(Run(t, steps))
    decreases |steps|
  {
    if steps != [] {
      match steps[0] {
        case Classify(inputs, now) => AssignAllKeepsIds(t, inputs, now);
        case Correct(row, c, machine, assembly, now) => OverrideKeepsIds(t, row, c, machine, assembly, now);
      }
      RunsKeepIds(Apply(t, steps[0]), steps[1..]);
    }
  }

  lemma {:induction false} AssignAllKeepsIds(t: Tables, inputs: seq<Input>, now: nat)
    requires IdsBelow(t)
    ensures IdsBelow(AssignAll(t, inputs, now))
  {
    if inputs != [] {
      AssignAllKeepsIds(t, inputs[..|inputs| - 1], now);
      AssignKeepsIds(AssignAll(t, inputs[..|inputs| - 1], now), inputs[|inputs| - 1], now);
    }
  }

  /** A human override stays the active row of its path through any number of
      classifications, whatever they decide. */
  lemma {:induction false} OverridesPersist(t: Tables, steps: seq<Step>, i: nat)
    requires Settleable(t.rows) && i < |t.rows| && Active(t.rows[i]) && t.rows[i].producer == OVERRIDE_METHOD
    requires CanRun(t, steps) && forall step :: step in steps ==> step.Classify?
    ensures var after := Run(t, steps);
            i < |after.rows| && after.rows[i] == t.rows[i] && Current(after.rows, t.rows[i].path) == Some(i)
    decreases |steps|
  {
    if steps == [] {
      OnlyOneIsCurrent(t.rows, i);
    } else {
      assert steps[0] in steps;
      var next := Apply(t, steps[0]);
      OverrideSurvives(t, steps[0].inputs, steps[0].now, i);
      AssignAllKeepsUniqueness(t, steps[0].inputs, steps[0].now);
      OverridesPersist(next, steps[1..], i);
    }
  }

  lemma {:induction false} OverrideSurvives(t: Tables, inputs: seq<Input>, now: nat, i: nat)
    requires i < |t.rows| && Active(t.rows[i]) && t.rows[i].producer == OVERRIDE_METHOD
    ensures var after := AssignAll(t, inputs, now); i < |after.rows| && after.rows[i] == t.rows[i]
  {
    if inputs != [] {
      var last := |inputs| - 1;
      OverrideSurvives(t, inputs[..last], now, i);
      OverrideSurvivesOne(AssignAll(t, inputs[..last], now), inputs[last], now, i);
    }
  }

  lemma OverrideSurvivesOne(t: Tables, input: Input, now: nat, i: nat)
    requires i < |t.rows| && Active(t.rows[i]) && t.rows[i].producer == OVERRIDE_METHOD
    ensures var after := Assign(t, input, now); i < |after.rows| && after.rows[i] == t.rows[i]
  {
  }

  /** Files are classified one after the other, in order. */
  lemma {:induction false} AssignInOrder(t: Tables, first: seq<Input>, more: seq<Input>, now: nat)
    ensures AssignAll(t, first + more, now) == AssignAll(AssignAll(t, first, now), more, now)
    ensures forall input :: AssignAll(t, [input], now) == Assign(t, input, now)
  {
    forall input ensures AssignAll(t, [input], now) == Assign(t, input, now) {
      assert [input][..0] == [];
    }
    if more == [] {
      assert first + more == first;
    } else {
      assert (first + more)[..|first + more| - 1] == first + more[..|more| - 1];
      AssignInOrder(t, first, more[..|more| - 1], now);
    }
  }

  // ---- classifying again ---------------------------------------------------------------------------

  /** `u` still has the machines and assemblies of `t`. */
  ghost predicate Keeps(t: Tables, u: Tables) {
    && (forall c :: c in t.machines ==> c in u.machines && u.machines[c] == t.machines[c])
    && (forall c :: c in t.assemblies ==> c in u.assemblies && u.assemblies[c] == t.assemblies[c])
  }

  /** Looking the decision up creates nothing and finds these. */
  ghost predicate Finds(t: Tables, d: Decision, machine: Option<nat>, assembly: Option<nat>) {
    MachineFor(t, d) == (machine, t) && AssemblyFor(t, machine, d) == (assembly, t)
  }

  lemma FindsLater(t: Tables, u: Tables, d: Decision, machine: Option<nat>, assembly: Option<nat>)
    requires Finds(t, d, machine, assembly) && Keeps(t, u)
    ensures Finds(u, d, machine, assembly)
  {
  }

  lemma EnsuredIsFound(t: Tables, d: Decision)
    ensures var (machine, t1) := MachineFor(t, d); var (assembly, t2) := AssemblyFor(t1, machine, d);
            Keeps(t, t2) && Finds(t2, d, machine, assembly) && t2.rows == t.rows
  {
  }

  /** The file's active row is an override, or says what the decision says. */
  ghost predicate Settled(t: Tables, input: Input) {
    var current, d := Current(t.rows, Some(input.path)), input.decision;
    && current.Some?
    && (|| t.rows[current.value].producer == OVERRIDE_METHOD
        || exists machine, assembly ::
             Finds(t, d, machine, assembly) && Agrees(t.rows[current.value], d, machine, assembly))
  }

  lemma SettledIsFixed(t: Tables, input: Input, now: nat)
    requires Settled(t, input)
    ensures Assign(t, input, now) == t
  {
  }

  /** What one step does, in the three cases it has. */
  lemma AssignCases(t: Tables, input: Input, now: nat)
    ensures Keeps(t, Assign(t, input, now))
    ensures var current, after := Current(t.rows, Some(input.path)), Assign(t, input, now);
            if current.Some? && t.rows[current.value].producer == OVERRIDE_METHOD then after == t
            else exists machine, assembly ::
              && Finds(after, input.decision, machine, assembly)
              && if current.Some? && Agrees(t.rows[current.value], input.decision, machine, assembly)
                   then after.rows == t.rows
                 else |after.rows| == |t.rows| + 1 && IsAt(after.rows[|t.rows|], Some(input.path))
                      && Agrees(after.rows[|t.rows|], input.decision, machine, assembly)
  {
    var current, after := Current(t.rows, Some(input.path)), Assign(t, input, now);
    if !(current.Some? && t.rows[current.value].producer == OVERRIDE_METHOD) {
      var (machine, t1) := MachineFor(t, input.decision);
      var (assembly, t2) := AssemblyFor(t1, machine, input.decision);
      EnsuredIsFound(t, input.decision);
      FindsLater(t2, after, input.decision, machine, assembly);
    }
  }

  lemma AssignSettles(t: Tables, input: Input, now: nat)
    requires Settleable(t.rows)
    ensures Settled(Assign(t, input, now), input)
  {
    var after := Assign(t, input, now);
    AssignCases(t, input, now);
    AssignKeepsUniqueness(t, input, now);
    if |after.rows| == |t.rows| + 1 && IsAt(after.rows[|t.rows|], Some(input.path)) {
      OnlyOneIsCurrent(after.rows, |t.rows|);
    }
  }

  lemma OtherPathsStay(t: Tables, input: Input, path: string, now: nat)
    requires Settleable(t.rows) && input.path != path && Current(t.rows, Some(path)).Some?
    ensures var i, after := Current(t.rows, Some(path)).value, Assign(t, input, now);
            i < |after.rows| && after.rows[i] == t.rows[i] && Current(after.rows, Some(path)) == Some(i)
  {
    var i, after := Current(t.rows, Some(path)).value, Assign(t, input, now);
    AssignKeepsUniqueness(t, input, now);
    OnlyOneIsCurrent(after.rows, i);
  }

  lemma AssignKeepsSettled(t: Tables, input: Input, other: Input, now: nat)
    requires Settleable(t.rows) && input.path != other.path && Settled(t, other)
    ensures Settled(Assign(t, input, now), other)
  {
    OtherPathsStay(t, input, other.path, now);
    AssignCases(t, input, now);
    var a := t.rows[Current(t.rows, Some(other.path)).value];
    if a.producer != OVERRIDE_METHOD {
      var machine, assembly :| Finds(t, other.decision, machine, assembly)
          && Agrees(a, other.decision, machine, assembly);
      FindsLater(t, Assign(t, input, now), other.decision, machine, assembly);
    }
  }

  ghost predicate DistinctPaths(inputs: seq<Input>) {
    forall i, j :: 0 <= i < j < |inputs| ==> inputs[i].path != inputs[j].path
  }

  lemma {:induction false} AllSettle(t: Tables, inputs: seq<Input>, now: nat)
    requires Settleable(t.rows) && DistinctPaths(inputs)
    ensures forall k :: 0 <= k < |inputs| ==> Settled(AssignAll(t, inputs, now), inputs[k])
  {
    if inputs != [] {
      var n := |inputs| - 1;
      var before := AssignAll(t, inputs[..n], now);
      AllSettle(t, inputs[..n], now);
      AssignAllKeepsUniqueness(t, inputs[..n], now);
      AssignSettles(before, inputs[n], now);
      forall k | 0 <= k < n ensures Settled(Assign(before, inputs[n], now), inputs[k]) {
        assert inputs[..n][k] == inputs[k] && Settled(before, inputs[k]);
        AssignKeepsSettled(before, inputs[n], inputs[k], now);
      }
    }
  }

  lemma {:induction false} SettledAllFixed(t: Tables, inputs: seq<Input>, now: nat)
    requires forall k :: 0 <= k < |inputs| ==> Settled(t, inputs[k])
    ensures AssignAll(t, inputs, now) == t
  {
    if inputs != [] {
      SettledAllFixed(t, inputs[..|inputs| - 1], now);
      SettledIsFixed(t, inputs[|inputs| - 1], now);
    }
  }

  /** A second classification of the same files with the same decisions creates nothing
      and changes nothing. */
  lemma ClassifyingAgainCreatesNothing(t: Tables, inputs: seq<Input>, now: nat, later: nat)
    requires Settleable(t.rows) && DistinctPaths(inputs)
    ensures AssignAll(AssignAll(t, inputs, now), inputs, later) == AssignAll(t, inputs, now)
  {
    AllSettle(t, inputs, now);
    SettledAllFixed(AssignAll(t, inputs, now), inputs, later);
  }
}
