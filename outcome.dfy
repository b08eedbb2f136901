/** The exceptions a match's processing can raise, and results that carry them. */
module Outcome {
  import opened Json

  /** Which id-to-name table a lookup went to. */
  datatype Table = Players | Agents | Weapons | Regions

  datatype Error =
    /** `KeyError`: an id that its table does not hold. */
    | LookupMiss(table: Table, id: Value)
    /** `KeyError`: a player-stat or economy dictionary without a key it is read at. */
    | KeyError(key: string)
    /** `TypeError` from indexing with `None`: no match of the series has the page's match id. */
    | MatchNotFound(matchId: int)
    /** `IndexError` in `player_stats_data`: a window reaches past the last filtered stat
        record while its economy slice still holds entries. */
    | StatsIndexError(index: nat)
    /** `IndexError` in `get_rounds`: round `num` has no window of player data. */
    | RoundsIndexError(num: nat)
    /** `AttributeError`: `csv_rows` reads `self.form`, which a discarded fetch never set. */
    | AttributeError

  datatype Result<+T> = Ok(value: T) | Err(error: Error) {
    predicate IsFailure() { Err? }

    function PropagateFailure<U>(): Result<U>
      requires Err?
    {
      Err(error)
    }

    function Extract(): T
      requires Ok?
    {
      value
    }
  }

  /** `d[k]` on a record dictionary, in terms of what the key reads as. */
  function Need(d: Dict, k: string): (r: Result<Value>)
    ensures r.Ok? <==> Get(d, k).Some?
    ensures r.Ok? ==> Get(d, k) == Some(r.value)
    ensures r.Err? ==> r.error == KeyError(k)
  {
    match Get(d, k)
    case Some(v) => Ok(v)
    case None => Err(KeyError(k))
  }

  /** `d[k]` succeeds exactly when `k` is one of the dictionary's keys, with
      the value of the first entry stored under `k` (the only one when the
      keys are distinct), and raises `KeyError(k)` otherwise. */
  lemma NeedReads(d: Dict, k: string)
    ensures Need(d, k).Ok? <==> k in Keys(d)
    ensures Need(d, k).Ok? ==> exists i :: FirstAt(d, k, i) && d[i].1 == Need(d, k).value
    ensures Need(d, k).Err? ==> Need(d, k).error == KeyError(k)
  {
    GetIsKey(d, k);
    if Get(d, k).Some? {
      GetFirst(d, k);
    }
  }
}
