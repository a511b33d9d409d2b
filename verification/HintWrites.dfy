/** What reaches the nodes: every request of the HAL is read back from the write that it causes. `before` and `after`
    are the kernel's writes around the opening of a request's node. */
module HintWrites {
  import opened Wrappers
  import opened PokerEngine
  import opened CText
  import opened ConstraintCommand
  import opened PokerObjects
  import opened PowerHints

  /** A floor of the HAL's priority, whatever 32-bit value it has. */
  lemma FloorReadsBack(min: int, before: seq<(nat, Payload)>, after: seq<(nat, Payload)>, fd: nat)
    requires Int32(min) && Wrote(before, after, fd, Prioritized(35, -1, min))
    ensures |after| == |before| + 1 && after[..|before|] == before && after[|before|].0 == fd
    ensures after[|before|].1.Characters? && Read(after[|before|].1.text) == Some(Constraint(-1, min, 35, 0))
  {
    MinimumAlwaysFits(35, min);
    hide Read, Decimal;
  }

  /** Every request a hint makes reaches a reader of its node unchanged. */
  lemma HintRequestsReadBack(h: Hint, b: Boosts, data: bool, i: nat, before: seq<(nat, Payload)>,
                             after: seq<(nat, Payload)>, fd: nat)
    requires Int32(b.interaction) && Int32(b.animation) && i < |Leases(h, b, data)|
    requires Wrote(before, after, fd, Leases(h, b, data)[i].command)
    ensures |after| == |before| + 1 && after[|before|].0 == fd
    ensures match Leases(h, b, data)[i].command
            case Plain(val) => after[|before|].1 == Binary(val)
            case Prioritized(_, _, min) =>
              after[|before|].1.Characters? && Read(after[|before|].1.text) == Some(Constraint(-1, min, 35, 0))
  {
    hide Read, Decimal, Wrote;
    match Leases(h, b, data)[i].command
    case Plain(val) => PlainIsWritten(val, before, after, fd);
    case Prioritized(priority, max, min) =>
      assert priority == 35 && max == -1 && Int32(min);
      FloorReadsBack(min, before, after, fd);
  }

  lemma PlainIsWritten(val: int, before: seq<(nat, Payload)>, after: seq<(nat, Payload)>, fd: nat)
    requires Wrote(before, after, fd, Plain(val))
    ensures after == before + [(fd, Binary(val))]
  {
  }

  /** The characters themselves, for AUDIO. */
  lemma AudioCharacters(before: seq<(nat, Payload)>, after: seq<(nat, Payload)>, fd: nat)
    requires Wrote(before, after, fd, Prioritized(35, -1, 512000))
    ensures after == before + [(fd, Characters("-1 512000 35 0"))]
  {
    AudioText();
    hide Read, Decimal, Digits;
    assert after == before + [after[|before|]];
  }

  lemma AudioText()
    ensures Decimal(-1) + " " + Decimal(512000) + " " + Decimal(35) + " 0" == "-1 512000 35 0"
  {
    TwoDigits(35);
    ThreeZeroes(512);
    TwoDigits(51);
    assert Digits(512) == Digits(51) + "2";
    assert Digits(1) == "1";
    hide Digits;
  }
}
