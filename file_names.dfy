/** The download file names of tools.go: the file id followed by the message's Unix time in decimal. */
module FileNames {
  import opened Wrappers
  import opened GoInts
  import opened Strconv

  /** `uniqueFileName(fileId, timestamp)`. */
  function UniqueFileName(fileId: string, timestamp: int): (name: string)
    ensures |name| > |fileId| && name[..|fileId|] == fileId
    ensures name[|fileId|] == '-' <==> timestamp < 0
    ensures |name| == |fileId| + DigitCount(if timestamp < 0 then -timestamp else timestamp) + (if timestamp < 0 then 1 else 0)
  {
    fileId + FormatInt(timestamp)
  }

  /** The part after the file id reads back as the timestamp. */
  lemma TimestampReadsBack(fileId: string, timestamp: int)
    requires IsInt64(timestamp)
    ensures Atoi(UniqueFileName(fileId, timestamp)[|fileId|..]) == (timestamp, None)
  {
    assert UniqueFileName(fileId, timestamp)[|fileId|..] == FormatInt(timestamp);
    AtoiFormatInt(timestamp);
  }

  /** For one file id, different timestamps give different names. */
  lemma DistinctTimestamps(fileId: string, t1: int, t2: int)
    requires IsInt64(t1) && IsInt64(t2) && t1 != t2
    ensures UniqueFileName(fileId, t1) != UniqueFileName(fileId, t2)
  {
    TimestampReadsBack(fileId, t1);
    TimestampReadsBack(fileId, t2);
  }

  /** The name does not mark where the id ends: an id ending in a digit can meet another id's name. */
  lemma IdsCanCollide()
    ensures UniqueFileName("AgAD1", 23) == UniqueFileName("AgAD", 123)
  {
    assert FormatInt(23) == "23" by { assert NatDigits(23) == NatDigits(2) + [DigitChar(3)]; }
    assert FormatInt(123) == "123" by {
      assert NatDigits(123) == NatDigits(12) + [DigitChar(3)];
      assert NatDigits(12) == NatDigits(1) + [DigitChar(2)];
    }
  }
}
