/** Decoding of smartctl's exit status (the RETURN VALUES section of the
    smartctl(8) manual page) into fatal errors and severity-tagged status
    findings: `Smart._parse_exit_status`. */
module ExitStatus {
  import opened Wrappers
  import opened Findings

  function Pow2(k: nat): (p: nat)
    ensures p >= 1
  {
    if k == 0 then 1 else 2 * Pow2(k - 1)
  }

  /** `status >> k`: Python shifts right by flooring, which is what Dafny's
      division by a positive divisor does, for negative numbers too. */
  function Shift(status: int, k: nat): int
    decreases k
  {
    if k == 0 then status else Shift(status / 2, k - 1)
  }

  /** `(status >> k) & 1` */
  function Bit(status: int, k: nat): (b: int)
    ensures b == 0 || b == 1
  {
    Shift(status, k) % 2
  }

  function DeviceText(device: Option<string>): string
  {
    KeyText(DeviceKey(device))
  }

  function StatusFinding(level: string, subject: Key, message: string): Finding
  {
    Metadata(level, Status(subject, message))
  }

  /** Bits 0 and 1 abort the probe (bit 0 first); otherwise bits 2, 3, 4, 5 and 7
      each yield one status finding about `serial or device`, in that order, and
      bit 2 only when failing commands are not ignored. */
  function ParseExitStatus(device: Option<string>, serial: Option<string>, status: int,
                           ignoreFailingCommands: bool): (r: Result<seq<Finding>, Fault>)
    ensures Bit(status, 0) == 1 ==>
      r == Failure(CheckError("Command line did not parse for " + DeviceText(device)))
    ensures Bit(status, 0) == 0 && Bit(status, 1) == 1 ==>
      r == Failure(CheckError("Device open failed for " + DeviceText(device)))
    ensures Bit(status, 0) == 0 && Bit(status, 1) == 0 ==> r.Success?
  {
    var subject := Subject(serial, device);
    if Bit(status, 0) == 1 then
      Failure(CheckError("Command line did not parse for " + DeviceText(device)))
    else if Bit(status, 1) == 1 then
      Failure(CheckError("Device open failed for " + DeviceText(device)))
    else
      Success(
        StatusIf(Bit(status, 2) == 1 && !ignoreFailingCommands, "warning", subject,
                 "a command failed or a checksum error was found")
        + StatusIf(Bit(status, 3) == 1, "critical", subject, "is in failing state")
        + StatusIf(Bit(status, 4) == 1, "critical", subject, "has prefail attributes below threshold")
        + StatusIf(Bit(status, 5) == 1, "warning", subject, "had prefail attributes below threshold at some point")
        + StatusIf(Bit(status, 7) == 1, "warning", subject, "returned errors during the last self-test"))
  }

  /** The finding for one bit: present exactly when the bit counts. */
  function StatusIf(present: bool, level: string, subject: Key, message: string): (r: seq<Finding>)
    ensures StatusOnly(r, subject)
    ensures present ==> r == [Metadata(level, Status(subject, message))]
    ensures !present ==> r == []
  {
    if present then [StatusFinding(level, subject, message)] else []
  }

  /** Every finding is a status finding about `subject`. */
  predicate StatusOnly(fs: seq<Finding>, subject: Key)
  {
    forall f :: f in fs ==> f.Metadata? && f.hint.Status? && f.hint.subject == subject
  }

  lemma StatusOnlyAppend(a: seq<Finding>, b: seq<Finding>, subject: Key)
    requires StatusOnly(a, subject) && StatusOnly(b, subject)
    ensures StatusOnly(a + b, subject)
  {
    forall f | f in a + b ensures f.Metadata? && f.hint.Status? && f.hint.subject == subject {
      assert f in a || f in b;
    }
  }

  /** Past the two fatal bits, every finding is a status finding about
      `serial or device`. */
  lemma ParseExitStatusOnlyStatus(device: Option<string>, serial: Option<string>, status: int,
                                  ignoreFailingCommands: bool)
    requires Bit(status, 0) == 0 && Bit(status, 1) == 0
    ensures ParseExitStatus(device, serial, status, ignoreFailingCommands).Success?
    ensures StatusOnly(ParseExitStatus(device, serial, status, ignoreFailingCommands).value, Subject(serial, device))
  {
    ParseExitStatusFollowsTable(device, serial, status, ignoreFailingCommands);
    TableStatusOnly(HealthBits, status, ignoreFailingCommands, Subject(serial, device));
  }

  lemma {:induction false} TableStatusOnly(rows: seq<StatusBit>, status: int, ignoreFailingCommands: bool, subject: Key)
    ensures StatusOnly(TableFindings(rows, status, ignoreFailingCommands, subject), subject)
    decreases |rows|
  {
    if rows != [] {
      TableStatusOnly(rows[1..], status, ignoreFailingCommands, subject);
      StatusOnlyAppend(RowFindings(rows[0], status, ignoreFailingCommands, subject),
                       TableFindings(rows[1..], status, ignoreFailingCommands, subject), subject);
    }
  }

  /** One row of smartctl's documented exit-status table: the bit, the severity
      the check gives it and the text it reports. */
  datatype StatusBit = StatusBit(bit: nat, level: string, message: string)

  /** The rows that describe the disk rather than the command line or the device
      node, in bit order. Bit 6 (the device error log has records) has no row. */
  const HealthBits: seq<StatusBit> := [
    StatusBit(2, "warning", "a command failed or a checksum error was found"),
    StatusBit(3, "critical", "is in failing state"),
    StatusBit(4, "critical", "has prefail attributes below threshold"),
    StatusBit(5, "warning", "had prefail attributes below threshold at some point"),
    StatusBit(7, "warning", "returned errors during the last self-test")
  ]

  /** The finding one table row contributes. */
  function RowFindings(row: StatusBit, status: int, ignoreFailingCommands: bool, subject: Key): seq<Finding>
  {
    StatusIf(Bit(status, row.bit) == 1 && !(row.bit == 2 && ignoreFailingCommands), row.level, subject, row.message)
  }

  /** Reference reading of the table: one finding per row whose bit is set, in
      row order, leaving out bit 2 when failing commands are ignored. */
  function TableFindings(rows: seq<StatusBit>, status: int, ignoreFailingCommands: bool,
                         subject: Key): seq<Finding>
  {
    if rows == [] then []
    else RowFindings(rows[0], status, ignoreFailingCommands, subject)
         + TableFindings(rows[1..], status, ignoreFailingCommands, subject)
  }

  lemma {:induction false} TableFindingsOfFive(rows: seq<StatusBit>, status: int, ign: bool, subject: Key)
    requires |rows| == 5
    ensures TableFindings(rows, status, ign, subject)
         == RowFindings(rows[0], status, ign, subject) + RowFindings(rows[1], status, ign, subject)
          + RowFindings(rows[2], status, ign, subject) + RowFindings(rows[3], status, ign, subject)
          + RowFindings(rows[4], status, ign, subject)
  {
    var r1, r2, r3, r4 := rows[1..], rows[2..], rows[3..], rows[4..];
    assert r1[1..] == r2 && r2[1..] == r3 && r3[1..] == r4 && r4[1..] == [];
    var f0, f1, f2 := RowFindings(rows[0], status, ign, subject), RowFindings(rows[1], status, ign, subject),
                      RowFindings(rows[2], status, ign, subject);
    var f3, f4 := RowFindings(rows[3], status, ign, subject), RowFindings(rows[4], status, ign, subject);
    assert TableFindings(r4, status, ign, subject) == f4;
    assert TableFindings(r3, status, ign, subject) == f3 + f4;
    assert TableFindings(r2, status, ign, subject) == f2 + (f3 + f4);
    assert TableFindings(r1, status, ign, subject) == f1 + (f2 + (f3 + f4));
    assert TableFindings(rows, status, ign, subject) == f0 + (f1 + (f2 + (f3 + f4)));
    Regroup(f0, f1, f2, f3, f4);
  }

  lemma Regroup(f0: seq<Finding>, f1: seq<Finding>, f2: seq<Finding>, f3: seq<Finding>, f4: seq<Finding>)
    ensures f0 + (f1 + (f2 + (f3 + f4))) == f0 + f1 + f2 + f3 + f4
  {
  }

  /** The decoder agrees with the table whenever neither fatal bit is set. */
  lemma ParseExitStatusFollowsTable(device: Option<string>, serial: Option<string>,
                                    status: int, ignoreFailingCommands: bool)
    requires Bit(status, 0) == 0 && Bit(status, 1) == 0
    ensures ParseExitStatus(device, serial, status, ignoreFailingCommands)
         == Success(TableFindings(HealthBits, status, ignoreFailingCommands, Subject(serial, device)))
  {
    TableFindingsOfFive(HealthBits, status, ignoreFailingCommands, Subject(serial, device));
  }

  /** Exit status 0 yields nothing. */
  lemma ExitStatusZero(device: Option<string>, serial: Option<string>, ignoreFailingCommands: bool)
    ensures ParseExitStatus(device, serial, 0, ignoreFailingCommands) == Success([])
  {
    forall k: nat ensures Bit(0, k) == 0 {
      ShiftZero(k);
    }
    ParseExitStatusFollowsTable(device, serial, 0, ignoreFailingCommands);
    TableNoBits(HealthBits, 0, ignoreFailingCommands, Subject(serial, device));
  }

  /** No row yields a finding when none of their bits is set. */
  lemma {:induction false} TableNoBits(rows: seq<StatusBit>, status: int, ignoreFailingCommands: bool, subject: Key)
    requires forall i :: 0 <= i < |rows| ==> Bit(status, rows[i].bit) == 0
    ensures TableFindings(rows, status, ignoreFailingCommands, subject) == []
    decreases |rows|
  {
    if rows != [] {
      assert Bit(status, rows[0].bit) == 0;
      TableNoBits(rows[1..], status, ignoreFailingCommands, subject);
    }
  }

  lemma {:induction false} ShiftZero(k: nat)
    ensures Shift(0, k) == 0
  {
    if k > 0 { ShiftZero(k - 1); }
  }

  /** Adding a multiple of 2^k before shifting by k adds the multiplier after. */
  lemma {:induction false} ShiftAdd(s: int, m: int, k: nat)
    ensures Shift(s + Pow2(k) * m, k) == Shift(s, k) + m
    decreases k
  {
    if k > 0 {
      var x := Pow2(k - 1) * m;
      Pow2Times(k, m);
      HalfAdd(s, x);
      ShiftAdd(s / 2, m, k - 1);
    }
  }

  lemma Pow2Times(k: nat, m: int)
    requires k > 0
    ensures Pow2(k) * m == 2 * (Pow2(k - 1) * m)
  {
    var q := Pow2(k - 1);
    assert Pow2(k) == 2 * q;
    MulTwo(q, m);
  }

  lemma MulTwo(q: int, m: int)
    ensures (2 * q) * m == 2 * (q * m) == q * (2 * m)
  {
  }

  lemma HalfAdd(s: int, x: int)
    ensures (s + 2 * x) / 2 == s / 2 + x
  {
  }

  lemma {:induction false} ShiftSucc(s: int, k: nat)
    ensures Shift(s, k + 1) == Shift(s, k) / 2
    decreases k
  {
    if k > 0 { ShiftSucc(s / 2, k - 1); }
  }

  /** Adding a multiple of 2^(k+1) leaves bit k alone. */
  lemma BitAddMultiple(s: int, k: nat, m: int)
    ensures Bit(s + Pow2(k + 1) * m, k) == Bit(s, k)
  {
    Pow2Times(k + 1, m);
    MulTwo(Pow2(k), m);
    ShiftAdd(s, 2 * m, k);
  }

  /** The decoder reads bits 0-5 and 7 and nothing else. */
  lemma SameBitsSameParse(device: Option<string>, serial: Option<string>, s: int, t: int,
                          ignoreFailingCommands: bool)
    requires Bit(s, 0) == Bit(t, 0) && Bit(s, 1) == Bit(t, 1) && Bit(s, 2) == Bit(t, 2)
    requires Bit(s, 3) == Bit(t, 3) && Bit(s, 4) == Bit(t, 4) && Bit(s, 5) == Bit(t, 5)
    requires Bit(s, 7) == Bit(t, 7)
    ensures ParseExitStatus(device, serial, s, ignoreFailingCommands)
         == ParseExitStatus(device, serial, t, ignoreFailingCommands)
  {
  }

  /** Bits at position 8 and above never change the outcome. */
  lemma ExitStatusIgnoresHighBits(device: Option<string>, serial: Option<string>, status: int,
                                  j: int, ignoreFailingCommands: bool)
    ensures ParseExitStatus(device, serial, status + 256 * j, ignoreFailingCommands)
         == ParseExitStatus(device, serial, status, ignoreFailingCommands)
  {
    var t := status + 256 * j;
    assert Pow2(1) == 2 && Pow2(2) == 4 && Pow2(3) == 8 && Pow2(4) == 16;
    assert Pow2(5) == 32 && Pow2(6) == 64 && Pow2(7) == 128 && Pow2(8) == 256;
    BitAddMultiple(status, 0, 128 * j);
    BitAddMultiple(status, 1, 64 * j);
    BitAddMultiple(status, 2, 32 * j);
    BitAddMultiple(status, 3, 16 * j);
    BitAddMultiple(status, 4, 8 * j);
    BitAddMultiple(status, 5, 4 * j);
    BitAddMultiple(status, 7, j);
    SameBitsSameParse(device, serial, t, status, ignoreFailingCommands);
  }

  /** Bit 6 (the device error log has records) never changes the outcome. */
  lemma ExitStatusIgnoresBit6(device: Option<string>, serial: Option<string>, status: int,
                              ignoreFailingCommands: bool)
    requires Bit(status, 6) == 0
    ensures ParseExitStatus(device, serial, status + 64, ignoreFailingCommands)
         == ParseExitStatus(device, serial, status, ignoreFailingCommands)
  {
    Add64KeepsLowBits(status);
    Add64KeepsBit7(status);
    SameBitsSameParse(device, serial, status + 64, status, ignoreFailingCommands);
  }

  lemma Add64KeepsLowBits(s: int)
    ensures Bit(s + 64, 0) == Bit(s, 0) && Bit(s + 64, 1) == Bit(s, 1) && Bit(s + 64, 2) == Bit(s, 2)
    ensures Bit(s + 64, 3) == Bit(s, 3) && Bit(s + 64, 4) == Bit(s, 4) && Bit(s + 64, 5) == Bit(s, 5)
  {
    assert Pow2(1) == 2 && Pow2(2) == 4 && Pow2(3) == 8 && Pow2(4) == 16;
    assert Pow2(5) == 32 && Pow2(6) == 64;
    BitAddMultiple(s, 0, 32);
    BitAddMultiple(s, 1, 16);
    BitAddMultiple(s, 2, 8);
    BitAddMultiple(s, 3, 4);
    BitAddMultiple(s, 4, 2);
    BitAddMultiple(s, 5, 1);
  }

  /** Setting a clear bit 6 does not carry into bit 7. */
  lemma Add64KeepsBit7(s: int)
    requires Bit(s, 6) == 0
    ensures Bit(s + 64, 7) == Bit(s, 7)
  {
    assert Pow2(1) == 2 && Pow2(2) == 4 && Pow2(3) == 8 && Pow2(4) == 16;
    assert Pow2(5) == 32 && Pow2(6) == 64;
    ShiftAdd(s, 1, 6);
    ShiftSucc(s, 6);
    ShiftSucc(s + 64, 6);
  }

  /** Status 8 (bit 3 alone): exactly one critical finding, "is in failing state". */
  lemma ExitStatusFailingState(device: Option<string>, serial: Option<string>, ignoreFailingCommands: bool)
    ensures ParseExitStatus(device, serial, 8, ignoreFailingCommands)
         == Success([StatusFinding("critical", Subject(serial, device), "is in failing state")])
  {
    assert Bit(8, 0) == 0 && Bit(8, 1) == 0 && Bit(8, 2) == 0 && Bit(8, 3) == 1;
    assert Shift(8, 4) == 0 by { ShiftZero(0); }
    assert Bit(8, 4) == 0 && Bit(8, 5) == 0 by { ShiftZero(1); }
    assert Bit(8, 7) == 0 by { ShiftZero(3); }
    var subject := Subject(serial, device);
    ParseExitStatusFollowsTable(device, serial, 8, ignoreFailingCommands);
    TableFindingsOfFive(HealthBits, 8, ignoreFailingCommands, subject);
    var found := [StatusFinding("critical", subject, "is in failing state")];
    assert RowFindings(HealthBits[0], 8, ignoreFailingCommands, subject) == [];
    assert RowFindings(HealthBits[1], 8, ignoreFailingCommands, subject) == found;
    assert RowFindings(HealthBits[2], 8, ignoreFailingCommands, subject) == [];
    assert RowFindings(HealthBits[3], 8, ignoreFailingCommands, subject) == [];
    assert RowFindings(HealthBits[4], 8, ignoreFailingCommands, subject) == [];
    assert [] + found + [] + [] + [] == found;
  }
}
