/** The forward-only cursor of the older copy of the package (midi/mocks.go). */
module OldMocks {
  import opened GoTypes
  import opened Mocks

  /** A byte buffer that can only be read forwards. */
  class MockReader {
    const data: seq<byte>
    var position: int

    ghost predicate Valid()
      reads this
    {
      0 <= position <= |data|
    }

    /** NewMockReader */
    constructor (data: seq<byte>)
      ensures this.data == data && position == 0
      ensures Valid()
    {
      this.data := data;
      position := 0;
    }

    /** Copies the next min(len(p), bytes left) bytes into the front of `p`,
        leaves the rest of `p` alone and advances by as many; the Go error result
        is always nil and is not returned. The position never moves back. */
    method Read(p: array<byte>) returns (n: nat)
      requires Valid()
      modifies this`position, p
      ensures Valid() && old(position) <= position
      ensures n == ReadCount(p.Length, |data| - old(position))
      ensures position == old(position) + n
      ensures p[..n] == data[old(position)..position]
      ensures p[n..] == old(p[n..])
    {
      var amount := p.Length;
      var maxAmount := |data| - position;
      if amount > maxAmount {
        amount := maxAmount;
      }
      forall i | 0 <= i < amount {
        p[i] := data[position + i];
      }
      position := position + amount;
      n := amount;
    }
  }
}
