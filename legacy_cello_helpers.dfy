/**
 * The older copy of the engine's helpers (utils/cello_helpers.py).  Its
 * counting and querying code is statement-for-statement the same as the
 * current copy, so each member here is defined by the current one and
 * restates the same promises.
 */
module LegacyCelloHelpers {
  import opened Wrappers
  import opened Json
  import CelloHelpers

  /** The older `permute_count_helper`: same total, same confirmation, same failure. */
  function PermuteCountHelper(iNetlist: nat, oNetlist: nat, gNetlist: nat,
                              iUcf: nat, oUcf: nat, gUcf: nat): (r: Result<(int, real)>)
    ensures r.Ok? <==> iNetlist <= iUcf && oNetlist <= oUcf && gNetlist <= gUcf
    ensures r.Err? ==> r.error == RecursionError
    ensures r.Ok? ==> r.value.0 == CelloHelpers.MathPerm(iUcf, iNetlist) * CelloHelpers.MathPerm(gUcf, gNetlist)
                                   * CelloHelpers.MathPerm(oUcf, oNetlist)
    ensures r.Ok? ==> r.value.1 == r.value.0 as real
  {
    CelloHelpers.PermuteCountHelper(iNetlist, oNetlist, gNetlist, iUcf, oUcf, gUcf)
  }

  /** The older `query_helper`: the matching dicts, in order, and nothing else. */
  method QueryHelper(dictList: seq<Object>, key: string, vals: seq<Value>) returns (out: seq<Object>)
    ensures forall d :: d in out <==> d in dictList && CelloHelpers.Matches(d, key, vals)
    ensures out == CelloHelpers.QueryFilter(dictList, key, vals)
  {
    out := CelloHelpers.QueryHelper(dictList, key, vals);
  }
}
