/** Which archives are unpacked, and under which member paths (app/adapters/zip_unpack.py). */
module ZipPaths {
  import opened Wrappers
  import opened Lists
  import Resolution

  const MAX_MEMBERS := 256
  const MAX_UNCOMPRESSED_TOTAL := 80 * 1024 * 1024
  const MAX_UNCOMPRESSED_MEMBER := 50 * 1024 * 1024
  const MAX_COMPRESSION_RATIO := 200
  const RATIO_FLOOR := 256
  const MAX_PATH := 240

  datatype Rejection = PackageRejected

  // ---- paths -----------------------------------------------------------------------

  function Forward(name: string): string {
    if name == "" then "" else [if name[0] == '\\' then '/' else name[0]] + Forward(name[1..])
  }

  /** A part that counts: neither empty nor a dot. */
  predicate Counts(part: string) { part != "" && part != "." }

  predicate Refused(part: string) { part == ".." || ':' in part }

  function Counting(parts: seq<string>): seq<string> {
    if parts == [] then []
    else
      var last := parts[|parts| - 1];
      Counting(parts[..|parts| - 1]) + if Counts(last) then [last] else []
  }

  predicate AnyRefused(parts: seq<string>) {
    exists p :: p in parts && Counts(p) && Refused(p)
  }

  function SafePath(name: string): Result<string, Rejection> {
    var raw := Forward(name);
    if raw != "" && raw[0] == '/' then Err(PackageRejected)
    else if AnyRefused(Split(raw, '/')) then Err(PackageRejected)
    else if Counting(Split(raw, '/')) == [] then Err(PackageRejected)
    else if |Join(Counting(Split(raw, '/')), '/')| > MAX_PATH then Err(PackageRejected)
    else Ok(Join(Counting(Split(raw, '/')), '/'))
  }

  /** `_safe_path`. */
  method ComputeSafePath(name: string) returns (r: Result<string, Rejection>)
    ensures r == SafePath(name)
  {
    var raw := Forward(name);
    if raw != "" && raw[0] == '/' {
      return Err(PackageRejected);
    }
    var pieces := Split(raw, '/');
    var parts: seq<string> := [];
    for i := 0 to |pieces|
      invariant parts == Counting(pieces[..i]) && !AnyRefused(pieces[..i])
    {
      assert pieces[..i + 1][..i] == pieces[..i] && pieces[..i + 1] == pieces[..i] + [pieces[i]];
      var part := pieces[i];
      if part == "" || part == "." {
        continue;
      }
      if part == ".." || ':' in part {
        assert part in pieces;
        return Err(PackageRejected);
      }
      parts := parts + [part];
    }
    assert pieces[..|pieces|] == pieces;
    if parts == [] {
      return Err(PackageRejected);
    }
    var joined := Join(parts, '/');
    return if |joined| > MAX_PATH then Err(PackageRejected) else Ok(joined);
  }

  /** Parts of an accepted path: none empty, none a dot or two, no colon, no separator. */
  ghost predicate Plain(part: string) {
    Counts(part) && !Refused(part) && '/' !in part && '\\' !in part
  }

  lemma {:induction false} ForwardPass(name: string)
    ensures '\\' !in Forward(name)
    ensures '\\' !in name ==> Forward(name) == name
  {
    if name != "" {
      assert name == [name[0]] + name[1..];
      ForwardPass(name[1..]);
    }
  }

  lemma {:induction false} CountingParts(parts: seq<string>)
    ensures forall p :: p in Counting(parts) <==> p in parts && Counts(p)
    ensures (forall p :: p in parts ==> Counts(p)) ==> Counting(parts) == parts
  {
    if parts != [] {
      var n := |parts| - 1;
      assert parts == parts[..n] + [parts[n]];
      CountingParts(parts[..n]);
      assert parts[n] in parts && forall p :: p in parts[..n] ==> p in parts;
    }
  }

  /** Joining adds no character but the separator. */
  lemma {:induction false} JoinAddsSeparators(parts: seq<string>, c: char)
    requires c != '/'
    ensures c in Join(parts, '/') <==> exists p :: p in parts && c in p
  {
    if parts != [] {
      assert parts == [parts[0]] + parts[1..];
      JoinAddsSeparators(parts[1..], c);
    }
  }

  lemma PlainPartsJoin(parts: seq<string>)
    requires parts != [] && forall p :: p in parts ==> Plain(p)
    ensures Split(Join(parts, '/'), '/') == parts
    ensures '\\' !in Join(parts, '/') && Join(parts, '/') != "" && Join(parts, '/')[0] != '/'
  {
    JoinedPartsComeBack(parts, '/');
    JoinAddsSeparators(parts, '\\');
    assert parts[0] in parts && parts[0][0] in parts[0];
  }

  /** An accepted path is normalised: relative, of plain parts only, within the length
      limit, and accepting it again changes nothing. */
  lemma SafePathIsNormal(name: string)
    requires SafePath(name).Ok?
    ensures var path := SafePath(name).value;
            && (exists parts :: parts != [] && path == Join(parts, '/') && forall p :: p in parts ==> Plain(p))
            && 0 < |path| <= MAX_PATH && path[0] != '/'
            && SafePath(path) == Ok(path)
  {
    var raw := Forward(name);
    ForwardPass(name);
    SplitJoins(raw, '/');
    SplitLeavesNoSeparator(raw, '/');
    JoinAddsSeparators(Split(raw, '/'), '\\');
    var parts := Counting(Split(raw, '/'));
    CountingParts(Split(raw, '/'));
    assert forall p :: p in parts ==> Plain(p);
    PlainPartsJoin(parts);
    ForwardPass(Join(parts, '/'));
    CountingParts(parts);
  }

  // ---- archives ----------------------------------------------------------------------

  /** A directory entry of the archive, with what reading it gives. */
  datatype Entry = Entry(name: string, encrypted: bool, fileSize: nat, compressSize: nat, payload: Option<string>)

  datatype Member = Member(path: string, content: string)

  predicate TooDense(e: Entry) {
    && e.fileSize >= RATIO_FLOOR
    && e.fileSize > MAX_COMPRESSION_RATIO * (if e.compressSize == 0 then 1 else e.compressSize)
  }

  /** An entry that is acceptable by itself. */
  predicate Fine(e: Entry) {
    && !e.encrypted && SafePath(e.name).Ok? && e.fileSize <= MAX_UNCOMPRESSED_MEMBER && !TooDense(e)
    && e.payload.Some? && |e.payload.value| == e.fileSize
  }

  /** An entry with its member, if it is acceptable by itself. */
  datatype Checked = Checked(member: Option<Member>, size: nat)

  function Check(e: Entry): Checked {
    Checked(if Fine(e) then Some(Member(SafePath(e.name).value, e.payload.value)) else None, e.fileSize)
  }

  function CheckAll(files: seq<Entry>): seq<Checked> {
    seq(|files|, i requires 0 <= i < |files| => Check(files[i]))
  }

  function TotalSize(checks: seq<Checked>): nat {
    if checks == [] then 0 else TotalSize(checks[..|checks| - 1]) + checks[|checks| - 1].size
  }

  /** The members so far and their size; each entry is checked by itself and against the
      paths and the size before it. */
  datatype Unpacked = Unpacked(members: seq<Member>, total: nat)

  predicate Taken(members: seq<Member>, path: string) {
    exists k :: 0 <= k < |members| && members[k].path == path
  }

  function UnpackNext(u: Unpacked, c: Checked): Result<Unpacked, Rejection> {
    if c.member.None? || Taken(u.members, c.member.value.path) || u.total + c.size > MAX_UNCOMPRESSED_TOTAL
        then Err(PackageRejected)
    else Ok(Unpacked(u.members + [c.member.value], u.total + c.size))
  }

  function UnpackAll(checks: seq<Checked>): Result<Unpacked, Rejection> {
    if checks == [] then Ok(Unpacked([], 0))
    else
      var before := UnpackAll(checks[..|checks| - 1]);
      if before.Err? then before else UnpackNext(before.value, checks[|checks| - 1])
  }

  lemma {:induction false} UnpackingStops(checks: seq<Checked>, n: nat)
    requires n <= |checks|
    ensures UnpackAll(checks[..n]).Err? ==> UnpackAll(checks).Err?
  {
    if n == |checks| {
      assert checks[..n] == checks;
    } else {
      assert checks[..|checks| - 1][..n] == checks[..n];
      UnpackingStops(checks[..|checks| - 1], n);
    }
  }

  /** One entry of the loop. */
  method UnpackEntry(u: Unpacked, seen: set<string>, e: Entry)
      returns (r: Result<Unpacked, Rejection>, seen': set<string>)
    requires forall p :: p in seen <==> Taken(u.members, p)
    ensures r == UnpackNext(u, Check(e))
    ensures r.Ok? ==> forall p :: p in seen' <==> Taken(r.value.members, p)
  {
    r, seen' := Err(PackageRejected), seen;
    if e.encrypted {
      return;
    }
    var path := ComputeSafePath(e.name);
    if path.Err? || path.value in seen {
      return;
    }
    seen' := seen + {path.value};
    if e.fileSize > MAX_UNCOMPRESSED_MEMBER || TooDense(e) {
      return;
    }
    var total := u.total + e.fileSize;
    if total > MAX_UNCOMPRESSED_TOTAL || e.payload.None? || |e.payload.value| != e.fileSize {
      return;
    }
    var m := Member(path.value, e.payload.value);
    TakenSnoc(u.members, m);
    r := Ok(Unpacked(u.members + [m], total));
  }

  lemma TakenSnoc(members: seq<Member>, m: Member)
    ensures forall p :: Taken(members + [m], p) <==> Taken(members, p) || p == m.path
  {
    var more := members + [m];
    forall p ensures Taken(more, p) <==> Taken(members, p) || p == m.path {
      assert more[|members|] == m;
      if k :| 0 <= k < |members| && members[k].path == p { assert more[k].path == p; }
    }
  }

  /** `safe_unpack`, from the file entries on. */
  method SafeUnpack(files: seq<Entry>) returns (r: Result<seq<Member>, Rejection>)
    ensures r.Ok? <==> 0 < |files| <= MAX_MEMBERS && UnpackAll(CheckAll(files)).Ok?
    ensures r.Ok? ==> r.value == UnpackAll(CheckAll(files)).value.members
  {
    if files == [] || |files| > MAX_MEMBERS {
      return Err(PackageRejected);
    }
    var u, seen: set<string> := Unpacked([], 0), {};
    ghost var checks := CheckAll(files);
    for i := 0 to |files|
      invariant UnpackAll(checks[..i]) == Ok(u) && forall p :: p in seen <==> Taken(u.members, p)
    {
      assert checks[..i + 1][..i] == checks[..i];
      UnpackingStops(checks, i + 1);
      var next;
      next, seen := UnpackEntry(u, seen, files[i]);
      if next.Err? {
        return Err(PackageRejected);
      }
      u := next.value;
    }
    assert checks[..|files|] == checks;
    return Ok(u.members);
  }

  ghost predicate MembersOf(checks: seq<Checked>, members: seq<Member>) {
    |members| == |checks| && forall k :: 0 <= k < |checks| ==> checks[k].member == Some(members[k])
  }

  ghost predicate DistinctMembers(members: seq<Member>) {
    forall i, j :: 0 <= i < j < |members| ==> members[i].path != members[j].path
  }

  /** What makes an archive acceptable, whatever the order of its entries. */
  ghost predicate Acceptable(checks: seq<Checked>, members: seq<Member>) {
    MembersOf(checks, members) && DistinctMembers(members) && TotalSize(checks) <= MAX_UNCOMPRESSED_TOTAL
  }

  lemma {:induction false} UnpackedIsAcceptable(checks: seq<Checked>)
    requires UnpackAll(checks).Ok?
    ensures Acceptable(checks, UnpackAll(checks).value.members) && UnpackAll(checks).value.total == TotalSize(checks)
  {
    if checks != [] {
      UnpackedIsAcceptable(checks[..|checks| - 1]);
    }
  }

  lemma {:induction false} AcceptableUnpacks(checks: seq<Checked>, members: seq<Member>)
    requires Acceptable(checks, members)
    ensures UnpackAll(checks) == Ok(Unpacked(members, TotalSize(checks)))
  {
    if checks != [] {
      var n := |checks| - 1;
      assert members == members[..n] + [members[n]];
      AcceptableUnpacks(checks[..n], members[..n]);
    }
  }

  /** Unpacking succeeds exactly when every entry is acceptable by itself, the normalised
      paths are distinct and the total size is within the limit; and then it gives every
      file in order, with its content, under its normalised path. */
  lemma UnpackingIsFair(files: seq<Entry>)
    ensures UnpackAll(CheckAll(files)).Ok? <==> exists members :: Acceptable(CheckAll(files), members)
    ensures forall members :: Acceptable(CheckAll(files), members) ==>
              && UnpackAll(CheckAll(files)) == Ok(Unpacked(members, TotalSize(CheckAll(files))))
              && forall k :: 0 <= k < |files| ==>
                   Fine(files[k]) && members[k] == Member(SafePath(files[k].name).value, files[k].payload.value)
  {
    var checks := CheckAll(files);
    if UnpackAll(checks).Ok? { UnpackedIsAcceptable(checks); }
    forall members | Acceptable(checks, members)
      ensures UnpackAll(checks) == Ok(Unpacked(members, TotalSize(checks)))
      ensures forall k :: 0 <= k < |files| ==>
                Fine(files[k]) && members[k] == Member(SafePath(files[k].name).value, files[k].payload.value)
    {
      AcceptableUnpacks(checks, members);
      forall k | 0 <= k < |files|
        ensures Fine(files[k]) && members[k] == Member(SafePath(files[k].name).value, files[k].payload.value)
      {
        assert checks[k] == Check(files[k]);
      }
    }
  }

  /** Unpacked members have the distinct paths on which resolution relies, whatever
      storage keys they are given. */
  lemma UnpackedPathsAreDistinct(files: seq<Entry>, members: seq<Resolution.Member>)
    requires UnpackAll(CheckAll(files)).Ok? && |members| == |files|
    requires forall i :: 0 <= i < |files| ==> SafePath(files[i].name) == Ok(members[i].path)
    ensures Resolution.DistinctPaths(members)
  {
    var checks := CheckAll(files);
    UnpackedIsAcceptable(checks);
    var unpacked := UnpackAll(checks).value.members;
    forall i | 0 <= i < |files| ensures members[i].path == unpacked[i].path {
      assert checks[i] == Check(files[i]);
    }
  }

  // ---- paths and entries, told out ----------------------------------------------------

  /** Backslashes are read as slashes, and nothing else changes. */
  lemma {:induction false} ForwardOutcome(name: string)
    ensures |Forward(name)| == |name|
    ensures forall i :: 0 <= i < |name| ==> Forward(name)[i] == if name[i] == '\\' then '/' else name[i]
  {
    if name != "" { ForwardOutcome(name[1..]); }
  }

  /** The parts at these places, in order, and no others, are those that are neither empty
      nor a single dot. */
  ghost predicate KeepsAt(parts: seq<string>, kept: seq<string>, places: seq<nat>) {
    && |places| == |kept| && (forall k :: 0 <= k < |kept| ==> places[k] < |parts| && kept[k] == parts[places[k]])
    && (forall k, l :: 0 <= k < l < |kept| ==> places[k] < places[l])
    && (forall i: nat :: i < |parts| ==> (i in places <==> parts[i] != "" && parts[i] != "."))
  }

  lemma {:induction false} CountingOutcome(parts: seq<string>) returns (places: seq<nat>)
    ensures KeepsAt(parts, Counting(parts), places)
  {
    places := [];
    if parts != [] {
      var n := |parts| - 1;
      var before := CountingOutcome(parts[..n]);
      places := before + if Counts(parts[n]) then [n] else [];
      forall i: nat | i < |parts| ensures i in places <==> parts[i] != "" && parts[i] != "." {
        if i < n {
          assert parts[..n][i] == parts[i];
        } else {
          assert forall k :: 0 <= k < |before| ==> before[k] < n;
        }
      }
    }
  }

  /** A path is accepted exactly when it does not begin at the root, has no part that is two
      dots or holds a colon, has some part at all and is not too long; the parts that count
      are joined again. */
  lemma PathOutcome(name: string) returns (kept: seq<string>, places: seq<nat>)
    ensures KeepsAt(Split(Forward(name), '/'), kept, places)
    ensures SafePath(name).Ok? <==>
              && (name != "" ==> name[0] != '/' && name[0] != '\\') && kept != []
              && !LeadsOut(kept) && |Join(kept, '/')| <= 240
    ensures SafePath(name).Ok? ==> SafePath(name).value == Join(kept, '/')
  {
    var parts := Split(Forward(name), '/');
    kept := Counting(parts);
    places := CountingOutcome(parts);
    ForwardOutcome(name);
    RefusedParts(parts);
    var raw := Forward(name);
    assert name != "" <==> raw != "";
    assert name != "" ==> (raw[0] == '/' <==> name[0] == '/' || name[0] == '\\');
  }

  /** A part goes up, or names a drive or a stream. */
  predicate LeadsOut(parts: seq<string>) {
    exists i :: 0 <= i < |parts| && (parts[i] == ".." || ':' in parts[i])
  }

  lemma RefusedParts(parts: seq<string>)
    ensures AnyRefused(parts) <==> LeadsOut(Counting(parts))
  {
    CountingParts(parts);
    if AnyRefused(parts) {
      var p :| p in parts && Counts(p) && Refused(p);
      assert p in Counting(parts);
      var i :| 0 <= i < |Counting(parts)| && Counting(parts)[i] == p;
    }
    if LeadsOut(Counting(parts)) {
      var i :| 0 <= i < |Counting(parts)| && (Counting(parts)[i] == ".." || ':' in Counting(parts)[i]);
      assert Counting(parts)[i] in Counting(parts) && Refused(Counting(parts)[i]);
    }
  }

  /** An entry is taken exactly when it is not encrypted, its path is accepted, it has at
      most 50 MiB, expands by no more than 200 unless it is below 256 bytes, and reading it
      gives as many bytes as it declares. */
  lemma EntryOutcome(e: Entry)
    ensures Check(e).member.Some? <==>
            && !e.encrypted && SafePath(e.name).Ok? && e.fileSize <= 52428800
            && (e.fileSize >= 256 ==> e.fileSize <= 200 * e.compressSize || (e.compressSize == 0 && e.fileSize <= 200))
            && e.payload.Some? && |e.payload.value| == e.fileSize
    ensures Check(e).member.Some? ==>
              Check(e).member.value.path == SafePath(e.name).value && Check(e).member.value.content == e.payload.value
    ensures Check(e).size == e.fileSize
  {
  }

  /** At most 256 entries and 80 MiB in all. */
  lemma ArchiveOutcome(checks: seq<Checked>, members: seq<Member>)
    ensures Acceptable(checks, members) <==>
            && |members| == |checks| && (forall k :: 0 <= k < |checks| ==> checks[k].member == Some(members[k]))
            && (forall i, j :: 0 <= i < j < |members| ==> members[i].path != members[j].path)
            && TotalSize(checks) <= 83886080
    ensures MAX_MEMBERS == 256
    ensures checks != [] ==>
              TotalSize(checks) == TotalSize(checks[..|checks| - 1]) + checks[|checks| - 1].size && TotalSize([]) == 0
  {
  }
}
