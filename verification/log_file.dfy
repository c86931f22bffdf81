/** The file side of the logger: what is appended goes to the open file, which
    is rolled by size, but at most once a second. */
module LogFiles {
  /** A file on disk; it is named after the second it was opened in. */
  datatype DiskFile = DiskFile(openedAt: int, text: string)

  function Contents(files: seq<DiskFile>): string {
    if files == [] then [] else Contents(files[..|files| - 1]) + files[|files| - 1].text
  }

  lemma ContentsPush(files: seq<DiskFile>, f: DiskFile)
    ensures Contents(files + [f]) == Contents(files) + f.text
  {
    assert (files + [f])[..|files|] == files;
  }

  class LogFile {
    const rollSize: int
    const flushInterval: int
    const checkEveryN: int
    var count: int
    var lastRoll: int
    var lastFlush: int
    var curLen: int
    // The files closed so far, oldest first, and the one being written.
    var closed: seq<DiskFile>
    var file: DiskFile

    /** File names strictly increase, every closed file holds more than the roll
        size, and the counters stay below their limits. */
    ghost predicate Valid()
      reads this
    {
      && 0 <= curLen <= |file.text|
      && (curLen <= rollSize || curLen == 0)
      && (0 <= count < checkEveryN || count == 0)
      && file.openedAt == lastRoll
      && (forall i, j :: 0 <= i < j < |closed| ==> closed[i].openedAt < closed[j].openedAt)
      && (forall i :: 0 <= i < |closed| ==> closed[i].openedAt < lastRoll && |closed[i].text| > rollSize)
    }

    /** Everything ever written, through all files. */
    ghost function Total(): string
      reads this
    {
      Contents(closed + [file])
    }

    constructor (rollSize: int, flushInterval: int, checkEveryN: int, now: int)
      ensures Valid() && closed == [] && file == DiskFile(now, "") && Total() == ""
      ensures this.rollSize == rollSize && curLen == 0
    {
      this.rollSize, this.flushInterval, this.checkEveryN := rollSize, flushInterval, checkEveryN;
      count, curLen := 0, 0;
      lastRoll, lastFlush := now, now;
      closed, file := [], DiskFile(now, "");
      new;
      ContentsPush([], file);
    }

    /** `now` is what the clock says when the size is exceeded, `later` when the
        flush period is checked. */
    method Append(logline: string, now: int, later: int)
      requires Valid()
      modifies this
      ensures Valid()
      ensures Total() == old(Total()) + logline
      ensures if old(curLen) + |logline| > rollSize && now > old(lastRoll)
              then closed == old(closed) + [old(file).(text := old(file).text + logline)] && file == DiskFile(now, "")
              else closed == old(closed) && file == old(file).(text := old(file).text + logline)
      ensures curLen == if old(curLen) + |logline| > rollSize then 0 else old(curLen) + |logline|
    {
      Write(logline);
      curLen := curLen + |logline|;
      if curLen > rollSize {
        var _ := RollFile(now);
        curLen := 0;
      } else {
        count := count + 1;
        if count >= checkEveryN {
          count := 0;
          if later - lastFlush > flushInterval {
            lastFlush := later;
          }
        }
      }
    }

    method Write(logline: string)
      modifies this`file
      ensures file == old(file).(text := old(file).text + logline)
      ensures Total() == old(Total()) + logline
    {
      ContentsPush(closed, file);
      ContentsPush(closed, file.(text := file.text + logline));
      file := file.(text := file.text + logline);
      assert Total() == Contents(closed) + (old(file).text + logline);
    }

    /** A new name needs a new second; without one the file is not rolled. */
    method RollFile(now: int) returns (rolled: bool)
      requires |file.text| > rollSize && file.openedAt == lastRoll
      requires forall i, j :: 0 <= i < j < |closed| ==> closed[i].openedAt < closed[j].openedAt
      requires forall i :: 0 <= i < |closed| ==> closed[i].openedAt < lastRoll && |closed[i].text| > rollSize
      modifies this`closed, this`file, this`lastRoll, this`lastFlush
      ensures rolled == (now > old(lastRoll))
      ensures rolled ==> closed == old(closed) + [old(file)] && file == DiskFile(now, "") && lastRoll == now
      ensures !rolled ==> closed == old(closed) && file == old(file) && lastRoll == old(lastRoll)
      ensures Total() == old(Total())
    {
      if now > lastRoll {
        lastRoll := now;
        lastFlush := now;
        ContentsPush(closed + [file], DiskFile(now, ""));
        closed := closed + [file];
        file := DiskFile(now, "");
        return true;
      }
      return false;
    }
  }
}
