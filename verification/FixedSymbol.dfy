/** Owned, bounded symbol storage, so that a queued order does not depend on the
    lifetime of the feed line it came from. */
module FixedSymbols {
  import opened Messages

  /** What an assignment leaves behind: the value when it fits, otherwise the unassigned symbol. */
  function Assigned(value: string): Symbol
  {
    if |value| > MAX_SYMBOL_LENGTH then "" else value
  }

  class FixedSymbol {
    const data: array<char>
    var length: nat

    ghost predicate Valid()
      reads this, data
    {
      && data.Length == MAX_SYMBOL_LENGTH
      && length <= MAX_SYMBOL_LENGTH
      && forall i :: length <= i < MAX_SYMBOL_LENGTH ==> data[i] == '\0'
    }

    constructor ()
      ensures Valid() && fresh(data) && View() == ""
    {
      data := new char[MAX_SYMBOL_LENGTH](_ => '\0');
      length := 0;
    }

    function View(): (s: Symbol)
      requires Valid()
      reads this, data
    {
      data[..length]
    }

    /** Rejects empty and oversized values, and either way forgets the previous symbol. */
    method Assign(value: string) returns (ok: bool)
      requires Valid()
      modifies this, data
      ensures Valid()
      ensures ok <==> value != "" && |value| <= MAX_SYMBOL_LENGTH
      ensures View() == Assigned(value)
      ensures View() == if ok then value else ""
    {
      forall i | 0 <= i < data.Length {
        data[i] := '\0';
      }
      length := 0;
      if value == "" || |value| > MAX_SYMBOL_LENGTH {
        return false;
      }
      forall i | 0 <= i < |value| {
        data[i] := value[i];
      }
      length := |value|;
      ok := true;
    }
  }
}
