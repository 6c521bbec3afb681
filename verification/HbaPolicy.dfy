/** Rendering the HBA include file from an allowlist policy, and applying it to the two files on disk. */
module HbaPolicy {
  import opened Wrappers
  import opened Text
  import opened Ordering
  import opened HbaPrefix

  datatype Policy = Policy(
    adminCidrs: seq<string>, replicationCidrs: seq<string>, applicationCidrs: seq<string>,
    adminRoles: seq<string>, applicationRoles: seq<string>, applicationDbs: seq<string>)

  // ---- Canonical lists ----

  /** The trimmed non-empty entries. */
  function Entries(values: seq<string>): set<string> {
    (set v <- values :: TrimSpace(v)) - {""}
  }

  /** First occurrences, trimmed, in the order they come. */
  function Collected(values: seq<string>): seq<string> {
    if |values| == 0 then []
    else
      var before := Collected(values[..|values| - 1]);
      var v := TrimSpace(values[|values| - 1]);
      if v == "" || v in before then before else before + [v]
  }

  function Canonical(values: seq<string>): seq<string> {
    Sorted(Collected(values))
  }

  method CanonicalStrings(values: seq<string>) returns (out: seq<string>)
    ensures out == Canonical(values)
  {
    out := [];
    var seen: set<string> := {};
    var i := 0;
    while i < |values|
      invariant 0 <= i <= |values| && out == Collected(values[..i]) && seen == Elements(out)
    {
      assert values[..i + 1][..i] == values[..i];
      var v := TrimSpace(values[i]);
      if v != "" && v !in seen {
        seen := seen + {v};
        out := out + [v];
      }
      i := i + 1;
    }
    assert values[..i] == values;
    out := Sorted(out);
  }

  lemma CollectedStep(before: seq<string>, v: string)
    requires NoRepeats(before)
    ensures v !in before ==> NoRepeats(before + [v])
    ensures Elements(before + [v]) == Elements(before) + {v}
            && (v in before ==> Elements(before) + {v} == Elements(before))
  {
  }

  lemma {:induction false} CollectedAre(values: seq<string>)
    ensures NoRepeats(Collected(values)) && Elements(Collected(values)) == Entries(values)
  {
    if |values| > 0 {
      var n := |values| - 1;
      CollectedAre(values[..n]);
      assert values == values[..n] + [values[n]];
      assert (set v <- values :: TrimSpace(v)) == (set v <- values[..n] :: TrimSpace(v)) + {TrimSpace(values[n])};
      CollectedStep(Collected(values[..n]), TrimSpace(values[n]));
    }
  }

  /** The canonical list holds the trimmed non-empty entries, each once, in ascending order. */
  lemma CanonicalIs(values: seq<string>)
    ensures Ascending(Canonical(values)) && Elements(Canonical(values)) == Entries(values)
  {
    CollectedAre(values);
    SortedAscending(Collected(values));
  }

  /** Order, repetition, blanks and empty entries are all that is forgotten. */
  lemma CanonicalIff(a: seq<string>, b: seq<string>)
    ensures Canonical(a) == Canonical(b) <==> Entries(a) == Entries(b)
  {
    CanonicalIs(a);
    CanonicalIs(b);
    if Entries(a) == Entries(b) {
      AscendingUnique(Canonical(a), Canonical(b));
    }
  }

  // ---- The include file ----

  const SCRAM_AUTH := " scram-sha-256\n"
  const HOST_ALL := "host    all             "
  const HOST_REPLICATION := "host    replication     "
  const GAP := "             "
  const MANAGED_COMMENT := "# Managed by Skylex. " + "Do not edit manually."
  const LOCAL_COMMENT := "# Local administrative " + "access for the " + "PostgreSQL service account."
  const OWN_V4 := "             127.0.0.1/32           "
  const OWN_V6 := "             ::1/128                "
  const LOCAL_ALL := "local   all             all"
  const WIDE_GAP := "                                    "

  /** Comment lines and the service account's own access. */
  function Header(superuser: string): string {
    MANAGED_COMMENT + "\n" + LOCAL_COMMENT + "\n" +
    LOCAL_ALL + WIDE_GAP + SCRAM_AUTH +
    HOST_ALL + HbaField(superuser) + OWN_V4 + SCRAM_AUTH +
    HOST_ALL + HbaField(superuser) + OWN_V6 + SCRAM_AUTH
  }

  function Line(prefix: string, cidr: string): string {
    prefix + GAP + PadRight(cidr, 22) + SCRAM_AUTH
  }

  /** One line per role for one network. */
  function RoleLines(roles: seq<string>, cidr: string): string {
    if |roles| == 0 then "" else RoleLines(roles[..|roles| - 1], cidr) + Line(HOST_ALL + roles[|roles| - 1], cidr)
  }

  function AdminLines(cidrs: seq<string>, roles: seq<string>): string {
    if |cidrs| == 0 then "" else AdminLines(cidrs[..|cidrs| - 1], roles) + RoleLines(roles, cidrs[|cidrs| - 1])
  }

  function Lines(prefix: string, cidrs: seq<string>): string {
    if |cidrs| == 0 then "" else Lines(prefix, cidrs[..|cidrs| - 1]) + Line(prefix, cidrs[|cidrs| - 1])
  }

  function Joined(items: seq<string>): string {
    if |items| == 0 then ""
    else if |items| == 1 then items[0]
    else Joined(items[..|items| - 1]) + "," + items[|items| - 1]
  }

  function HbaList(values: seq<string>): string {
    Joined(Canonical(values))
  }

  function ApplicationPrefix(p: Policy): string {
    "host    " + HbaList(p.applicationDbs) + GAP + HbaList(p.applicationRoles)
  }

  function Rendered(p: Policy, superuser: string, replUser: string): string {
    Header(superuser)
    + AdminLines(Canonical(p.adminCidrs), [HbaField(superuser)] + Canonical(p.adminRoles))
    + Lines(HOST_REPLICATION + HbaField(replUser), Canonical(p.replicationCidrs))
    + if HbaList(p.applicationRoles) != "" && HbaList(p.applicationDbs) != ""
      then Lines(ApplicationPrefix(p), Canonical(p.applicationCidrs)) else ""
  }

  method RenderLines(prefix: string, cidrs: seq<string>) returns (text: string)
    ensures text == Lines(prefix, cidrs)
  {
    text := "";
    var i := 0;
    while i < |cidrs|
      invariant 0 <= i <= |cidrs| && text == Lines(prefix, cidrs[..i])
    {
      assert cidrs[..i + 1][..i] == cidrs[..i];
      text := text + Line(prefix, cidrs[i]);
      i := i + 1;
    }
    assert cidrs[..i] == cidrs;
  }

  method RenderRoleLines(roles: seq<string>, cidr: string) returns (text: string)
    ensures text == RoleLines(roles, cidr)
  {
    text := "";
    var i := 0;
    while i < |roles|
      invariant 0 <= i <= |roles| && text == RoleLines(roles[..i], cidr)
    {
      assert roles[..i + 1][..i] == roles[..i];
      text := text + Line(HOST_ALL + roles[i], cidr);
      i := i + 1;
    }
    assert roles[..i] == roles;
  }

  method RenderAdminLines(cidrs: seq<string>, roles: seq<string>) returns (text: string)
    ensures text == AdminLines(cidrs, roles)
  {
    text := "";
    var i := 0;
    while i < |cidrs|
      invariant 0 <= i <= |cidrs| && text == AdminLines(cidrs[..i], roles)
    {
      assert cidrs[..i + 1][..i] == cidrs[..i];
      var block := RenderRoleLines(roles, cidrs[i]);
      text := text + block;
      i := i + 1;
    }
    assert cidrs[..i] == cidrs;
  }

  method RenderHBAPolicy(p: Policy, superuser: string, replUser: string) returns (text: string)
    ensures text == Rendered(p, superuser, replUser)
  {
    var admin := CanonicalStrings(p.adminCidrs);
    var replication := CanonicalStrings(p.replicationCidrs);
    var application := CanonicalStrings(p.applicationCidrs);
    var adminRoles := CanonicalStrings(p.adminRoles);
    text := Header(superuser);
    var block := RenderAdminLines(admin, [HbaField(superuser)] + adminRoles);
    text := text + block;
    block := RenderLines(HOST_REPLICATION + HbaField(replUser), replication);
    text := text + block;
    if HbaList(p.applicationRoles) != "" && HbaList(p.applicationDbs) != "" {
      block := RenderLines(ApplicationPrefix(p), application);
      text := text + block;
    }
  }

  /** The same sets of entries, list by list. */
  ghost predicate Equivalent(p: Policy, q: Policy) {
    && Entries(p.adminCidrs) == Entries(q.adminCidrs) && Entries(p.replicationCidrs) == Entries(q.replicationCidrs)
    && Entries(p.applicationCidrs) == Entries(q.applicationCidrs) && Entries(p.adminRoles) == Entries(q.adminRoles)
    && Entries(p.applicationRoles) == Entries(q.applicationRoles)
    && Entries(p.applicationDbs) == Entries(q.applicationDbs)
  }

  /** Equivalent policies render to the same bytes. */
  lemma RenderingIsCanonical(p: Policy, q: Policy, superuser: string, replUser: string)
    requires Equivalent(p, q)
    ensures Rendered(p, superuser, replUser) == Rendered(q, superuser, replUser)
  {
    CanonicalIff(p.adminCidrs, q.adminCidrs);
    CanonicalIff(p.replicationCidrs, q.replicationCidrs);
    CanonicalIff(p.applicationCidrs, q.applicationCidrs);
    CanonicalIff(p.adminRoles, q.adminRoles);
    CanonicalIff(p.applicationRoles, q.applicationRoles);
    CanonicalIff(p.applicationDbs, q.applicationDbs);
  }

  // ---- Applying it ----

  datatype Files = Files(includeFile: Option<string>, mainFile: Option<string>)

  /** Which operating-system call fails, if any. */
  datatype Failure = NoFailure | WriteInclude | WriteMain | ReloadFails

  datatype Applied = UpToDate | AppliedAndReloaded | NotInitialized | NoMainFile | WriteFailed | ReloadFailed

  /** What an apply leaves, given the bytes it wants in both files. */
  function Outcome(f: Files, initialized: bool, next: string, nextMain: string, failure: Failure): (Applied, Files) {
    if !initialized then (NotInitialized, f)
    else if f.mainFile.None? then (NoMainFile, f)
    else if f.includeFile == Some(next) && f.mainFile.value == nextMain then (UpToDate, f)
    else if failure == WriteInclude || failure == WriteMain then (WriteFailed, f)
    else if failure == ReloadFails then (ReloadFailed, f)
    else (AppliedAndReloaded, Files(Some(next), Some(nextMain)))
  }

  function NextMain(f: Files, superuser: string): string {
    if f.mainFile.Some? then WithManaged(f.mainFile.value, superuser) else ""
  }

  function ApplyResult(f: Files, initialized: bool, p: Policy, superuser: string, replUser: string, failure: Failure)
    : (Applied, Files)
  {
    Outcome(f, initialized, Rendered(p, superuser, replUser), NextMain(f, superuser), failure)
  }

  class Hba {
    var includeFile: Option<string>
    var mainFile: Option<string>
    var reloads: nat

    constructor (f: Files)
      ensures Disk() == f && reloads == 0
    {
      includeFile, mainFile, reloads := f.includeFile, f.mainFile, 0;
    }

    function Disk(): Files
      reads this
    {
      Files(includeFile, mainFile)
    }

    /** Writes both files, reloads, and puts the previous bytes back when a step fails. */
    method Write(initialized: bool, next: string, nextMain: string, failure: Failure) returns (r: Applied)
      modifies this
      ensures (r, Disk()) == Outcome(old(Disk()), initialized, next, nextMain, failure)
      ensures failure != NoFailure ==> Disk() == old(Disk())
      ensures reloads == old(reloads) + if r == AppliedAndReloaded then 1 else 0
    {
      if !initialized {
        return NotInitialized;
      }
      if mainFile.None? {
        return NoMainFile;
      }
      var previousInclude, previousMain := includeFile, mainFile.value;
      if previousInclude == Some(next) && previousMain == nextMain {
        return UpToDate;
      }
      if failure == WriteInclude {
        return WriteFailed;
      }
      includeFile := Some(next);
      if failure == WriteMain {
        includeFile := previousInclude;
        return WriteFailed;
      }
      mainFile := Some(nextMain);
      if failure == ReloadFails {
        includeFile := previousInclude;
        mainFile := Some(previousMain);
        return ReloadFailed;
      }
      reloads := reloads + 1;
      return AppliedAndReloaded;
    }

    method ApplyHBA(initialized: bool, p: Policy, superuser: string, replUser: string, failure: Failure)
      returns (r: Applied)
      modifies this
      ensures (r, Disk()) == ApplyResult(old(Disk()), initialized, p, superuser, replUser, failure)
      ensures failure != NoFailure ==> Disk() == old(Disk())
      ensures reloads == old(reloads) + if r == AppliedAndReloaded then 1 else 0
    {
      var next := RenderHBAPolicy(p, superuser, replUser);
      r := Write(initialized, next, NextMain(Disk(), superuser), failure);
    }
  }

  lemma OutcomeTwice(f: Files, next: string, nextMain: string, again: string, failure: Failure)
    requires Outcome(f, true, next, nextMain, NoFailure).0 == AppliedAndReloaded
    ensures var g := Outcome(f, true, next, nextMain, NoFailure).1;
            && f.mainFile.Some? && g.mainFile == Some(nextMain)
            && (Outcome(g, true, next, again, failure) == (UpToDate, g) <==> again == nextMain)
  {
  }

  /**
   After a successful apply, any equivalent policy finds both files up to date, so nothing is
   written and nothing reloads - exactly when the superuser's name does not hold the end marker.
   */
  lemma SecondApplyIsQuietIff(f: Files, p: Policy, q: Policy, superuser: string, replUser: string, failure: Failure)
    requires Equivalent(p, q) && ApplyResult(f, true, p, superuser, replUser, NoFailure).0 == AppliedAndReloaded
    ensures var g := ApplyResult(f, true, p, superuser, replUser, NoFailure).1;
            ApplyResult(g, true, q, superuser, replUser, failure) == (UpToDate, g)
            <==> !Contains(HbaField(superuser), HBA_END)
  {
    RenderingIsCanonical(p, q, superuser, replUser);
    var g := Outcome(f, true, Rendered(p, superuser, replUser), NextMain(f, superuser), NoFailure).1;
    OutcomeTwice(f, Rendered(p, superuser, replUser), NextMain(f, superuser), NextMain(g, superuser), failure);
    MainTwice(f, g, superuser);
  }

  lemma MainTwice(f: Files, g: Files, superuser: string)
    requires f.mainFile.Some? && g.mainFile == Some(NextMain(f, superuser))
    ensures NextMain(g, superuser) == NextMain(f, superuser) <==> !Contains(HbaField(superuser), HBA_END)
  {
    AbsorbsIff(f.mainFile.value, superuser, superuser);
  }

  /** The result of every way an apply can go, and the two files it leaves. */
  lemma ApplyIs(f: Files, initialized: bool, p: Policy, superuser: string, replUser: string, failure: Failure)
    ensures var (r, g) := ApplyResult(f, initialized, p, superuser, replUser, failure);
            var next := Rendered(p, superuser, replUser);
            && (r == NotInitialized <==> !initialized)
            && (r == NoMainFile <==> initialized && f.mainFile.None?)
            && (r == UpToDate <==> initialized && f.mainFile.Some? && f.includeFile == Some(next)
                                   && WithManaged(f.mainFile.value, superuser) == f.mainFile.value)
            && (r == WriteFailed ==> failure == WriteInclude || failure == WriteMain)
            && (r == ReloadFailed ==> failure == ReloadFails) && (r == AppliedAndReloaded ==> failure == NoFailure)
            && g == if r == AppliedAndReloaded
                    then Files(Some(next), Some(WithManaged(f.mainFile.value, superuser))) else f
  {
  }
}
