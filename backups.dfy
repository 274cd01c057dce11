/** `create_backup`: a `pg_dump` of the database into a time-stamped file in
    the backup directory, compressed with `tar` and then removed. The clock,
    the location of `pg_dump` (looked up with `which` when the program loads)
    and the expanded backup directory are parameters. */
module Backups {
  import opened Wrappers
  import opened Text
  import opened Builders

  const DEFAULT_BACKUP_DIR := "~/backups"
  const BACKUP_SUFFIX := "_labdb_backup.dump"

  /** A reading of the clock (`Time.now`). */
  datatype Time = Time(year: nat, month: nat, day: nat, hour: nat, minute: nat, second: nat)

  /** A time the fixed-width format below prints faithfully. */
  predicate Representable(t: Time) {
    t.year < 10000 && 1 <= t.month <= 12 && 1 <= t.day <= 31
    && t.hour < 24 && t.minute < 60 && t.second <= 60
  }

  /** `%Y`: the year in decimal, padded with zeros to at least four digits. */
  function YearDigits(year: nat): (s: string)
    ensures year < 10000 ==> s == Digits(year, 4)
    ensures year >= 10000 ==> |s| > 4
    ensures AllDigits(s)
  {
    if year < 10000 then Digits(year, 4)
    else
      assert DigitCount(year) >= 5 by { DigitCountBound(year, 4); }
      Digits(year, DigitCount(year))
  }

  /** `strftime("%Y%m%d_%H%M%S")`. */
  function Timestring(t: Time): (s: string)
    ensures t.year < 10000 <==> |s| == 15
    ensures |s| >= 15 && s[|s| - 7] == '_'
  {
    YearDigits(t.year) + Digits(t.month, 2) + Digits(t.day, 2) + "_"
    + Digits(t.hour, 2) + Digits(t.minute, 2) + Digits(t.second, 2)
  }

  /** The dump's file name, `<YYYYMMDD_HHMMSS>_labdb_backup.dump`. */
  function BackupFileName(t: Time): (fn: string)
    ensures |fn| >= 15 + |BACKUP_SUFFIX| && fn[|fn| - |BACKUP_SUFFIX|..] == BACKUP_SUFFIX
  {
    Timestring(t) + BACKUP_SUFFIX
  }

  /** Reads back a date written as `YYYYMMDD` and a clock written as `HHMMSS`. */
  function ParseFields(date: string, clock: string): Option<Time>
    requires |date| == 8 && |clock| == 6
  {
    if AllDigits(date) && AllDigits(clock)
    then Some(Time(Value(date[..4]), Value(date[4..6]), Value(date[6..]),
                   Value(clock[..2]), Value(clock[2..4]), Value(clock[4..])))
    else None
  }

  /** Reads a time back from `YYYYMMDD_HHMMSS`. */
  function ParseTimestring(s: string): Option<Time> {
    if |s| == 15 && s[8] == '_' then ParseFields(s[..8], s[9..]) else None
  }

  /** Reads a time back from a backup file name; `None` for any other name. */
  function ParseBackupFileName(name: string): Option<Time> {
    if |name| == 15 + |BACKUP_SUFFIX| && name[15..] == BACKUP_SUFFIX then ParseTimestring(name[..15]) else None
  }

  /** From year 10000 on, `%Y` prints more than four digits, and the parser,
      which reads a four-digit year, does not accept the name. */
  lemma LongYearNameNotReadBack(t: Time)
    requires t.year >= 10000
    ensures ParseBackupFileName(BackupFileName(t)) == None
  {
  }

  lemma SplitThree(a: string, b: string, c: string)
    ensures (a + b + c)[..|a|] == a
    ensures (a + b + c)[|a|..|a| + |b|] == b
    ensures (a + b + c)[|a| + |b|..] == c
  {
    assert a + b + c == a + (b + c);
  }

  /** The digits of a date or a clock, one field after another. */
  lemma ParseFieldsOfDigits(t: Time)
    requires Representable(t)
    ensures ParseFields(Digits(t.year, 4) + Digits(t.month, 2) + Digits(t.day, 2),
                        Digits(t.hour, 2) + Digits(t.minute, 2) + Digits(t.second, 2)) == Some(t)
  {
    var y, mo, d := Digits(t.year, 4), Digits(t.month, 2), Digits(t.day, 2);
    var h, mi, se := Digits(t.hour, 2), Digits(t.minute, 2), Digits(t.second, 2);
    SplitThree(y, mo, d);
    SplitThree(h, mi, se);
    AllDigitsConcat(y, mo);
    AllDigitsConcat(y + mo, d);
    AllDigitsConcat(h, mi);
    AllDigitsConcat(h + mi, se);
    assert Pow10(2) == 100 && Pow10(4) == 10000;
    ValueOfDigits(t.year, 4);
    ValueOfDigits(t.month, 2);
    ValueOfDigits(t.day, 2);
    ValueOfDigits(t.hour, 2);
    ValueOfDigits(t.minute, 2);
    ValueOfDigits(t.second, 2);
  }

  /** The file name of a backup names the time it was taken. */
  lemma BackupFileNameRoundTrip(t: Time)
    requires Representable(t)
    ensures ParseBackupFileName(BackupFileName(t)) == Some(t)
  {
    var date := Digits(t.year, 4) + Digits(t.month, 2) + Digits(t.day, 2);
    var clock := Digits(t.hour, 2) + Digits(t.minute, 2) + Digits(t.second, 2);
    assert YearDigits(t.year) == Digits(t.year, 4);
    assert Timestring(t) == date + "_" + clock;
    ParseOfPieces(date, clock);
    ParseFieldsOfDigits(t);
  }

  /** The parser takes a name apart into the date and the clock it was made of. */
  lemma ParseOfPieces(date: string, clock: string)
    requires |date| == 8 && |clock| == 6
    ensures ParseBackupFileName(date + "_" + clock + BACKUP_SUFFIX) == ParseFields(date, clock)
  {
    var ts := date + "_" + clock;
    SplitThree(date, "_", clock);
    SplitThree(ts, BACKUP_SUFFIX, []);
  }

  /** The fields the parser reads are printed back as the digits they were read from. */
  lemma FieldsOfParse(date: string, clock: string, t: Time)
    requires |date| == 8 && |clock| == 6 && ParseFields(date, clock) == Some(t)
    ensures Digits(t.year, 4) + Digits(t.month, 2) + Digits(t.day, 2) == date
    ensures Digits(t.hour, 2) + Digits(t.minute, 2) + Digits(t.second, 2) == clock
  {
    AllDigitsConcat(date[..4], date[4..]);
    AllDigitsConcat(date[4..6], date[6..]);
    AllDigitsConcat(clock[..2], clock[2..]);
    AllDigitsConcat(clock[2..4], clock[4..]);
    assert date == date[..4] + (date[4..6] + date[6..]) && date[4..][..2] == date[4..6] && date[4..][2..] == date[6..];
    assert clock == clock[..2] + (clock[2..4] + clock[4..]) && clock[2..][..2] == clock[2..4] && clock[2..][2..] == clock[4..];
    DigitsOfValue(date[..4]);
    DigitsOfValue(date[4..6]);
    DigitsOfValue(date[6..]);
    DigitsOfValue(clock[..2]);
    DigitsOfValue(clock[2..4]);
    DigitsOfValue(clock[4..]);
  }

  /** Every name the parser accepts is the file name of the time it reads. */
  lemma ParsedNameIsBackupFileName(name: string, t: Time)
    requires ParseBackupFileName(name) == Some(t)
    ensures BackupFileName(t) == name
  {
    var ts := name[..15];
    var date, clock := ts[..8], ts[9..];
    FieldsOfParse(date, clock, t);
    assert t.year < 10000 by {
      AllDigitsConcat(date[..4], date[4..]);
      assert date == date[..4] + date[4..];
      ValueBound(date[..4]);
      assert Pow10(4) == 10000;
    }
    assert Timestring(t) == date + "_" + clock;
    assert ts == date + [ts[8]] + clock;
    assert name == ts + name[15..];
  }

  /** `File.expand_path(fn, DEFAULT_BACKUP_DIR)`, with the expanded directory given. */
  function ExpandPath(fn: string, backupDir: string): string {
    backupDir + "/" + fn
  }

  /** Dumps the database into `file`. */
  function DumpStep(pgDumpPath: string, file: string): string { pgDumpPath + " " + ("-h localhost labdb > " + file) }

  /** Archives the dump. The source operands after `-C` are left uninterpolated
      in the program (no `#` before the braces), so `tar` is handed the literal
      words `{DEFAULT_BACKUP_DIR}` and `{fn}`. */
  function ArchiveStep(file: string): string { "tar cjf " + file + ".tar.bz2 -C {DEFAULT_BACKUP_DIR} {fn}" }

  /** Removes the uncompressed dump. */
  function RemoveStep(file: string): string { "rm -f " + file }

  lemma SpaceJoinedAndList(a: string, b: string, c: string, d: string)
    ensures Join([a, b, "&&", c, "&&", d], " ") == AndList([a + " " + b, c, d])
  {
    var parts := [a, b, "&&", c, "&&", d];
    assert parts[5..] == [d];
    assert Join(parts[4..], " ") == "&&" + " " + d by { assert parts[4..][1..] == parts[5..]; }
    assert Join(parts[3..], " ") == c + " " + "&&" + " " + d by { assert parts[3..][1..] == parts[4..]; }
    assert Join(parts[2..], " ") == "&&" + " " + c + " " + "&&" + " " + d by { assert parts[2..][1..] == parts[3..]; }
    assert Join(parts[1..], " ") == b + " " + "&&" + " " + c + " " + "&&" + " " + d by { assert parts[1..][1..] == parts[2..]; }
    assert " " + "&&" + " " == AND;
    AndListOfThree(a + " " + b, c, d);
  }

  /** `create_backup`: the space-joined pieces form the `&&` list of three
      steps on the expanded file named after the clock: dump the database
      into the file, archive it, and remove it; by `&&`, the uncompressed
      dump is removed only after the dump and the archive both exited with 0. */
  function CreateBackup(pgDumpPath: string, now: Time, backupDir: string): (cmd: string)
    ensures var file := ExpandPath(BackupFileName(now), backupDir);
            cmd == AndList([DumpStep(pgDumpPath, file), ArchiveStep(file), RemoveStep(file)])
  {
    var suffix := "_labdb_backup.dump";
    var backupTimestring := Timestring(now);
    var fn := backupTimestring + suffix;
    var fnFull := ExpandPath(fn, backupDir);
    assert fn == BackupFileName(now);
    SpaceJoinedAndList(pgDumpPath, "-h localhost labdb > " + fnFull,
                       "tar cjf " + fnFull + ".tar.bz2 -C {DEFAULT_BACKUP_DIR} {fn}", "rm -f " + fnFull);
    Join([pgDumpPath,
          "-h localhost labdb > " + fnFull,
          "&&",
          "tar cjf " + fnFull + ".tar.bz2 -C {DEFAULT_BACKUP_DIR} {fn}",
          "&&",
          "rm -f " + fnFull], " ")
  }

  /** Given the statuses the three steps would exit with, the remove step
      runs exactly when the dump and the archive both succeeded. */
  lemma DumpRemovedOnlyAfterArchive(statuses: seq<nat>)
    requires |statuses| == 3
    ensures StepsRun(statuses) == 3 <==> statuses[0] == 0 && statuses[1] == 0
  {
    StepRunsIffPredecessorsSucceed(statuses, 2);
  }
}
