/** The list of bootstrap results and the two use cases that walk it. */
module ResultLists {
  import opened Common

  datatype CandidateStatus =
    | NoMmsServer
    | MmsConnectFailed
    | NoSclFileFound
    | AccessDenied
    | DownloadFailed
    | FileRetrieved

  /** One result; `resource` is its identity, as its pointer is in the original. */
  datatype Result = Result(resource: nat, status: CandidateStatus)

  predicate Retrieved(item: Option<Result>) {
    item.Some? && item.value.status == FileRetrieved
  }

  /** The position of the first retrieved file, or the length of the list. */
  function FirstRetrieved(items: seq<Option<Result>>): (k: nat)
    ensures k <= |items|
    ensures k < |items| ==> Retrieved(items[k])
    ensures forall i :: 0 <= i < k ==> !Retrieved(items[i])
  {
    if items == [] || Retrieved(items[0]) then 0 else 1 + FirstRetrieved(items[1..])
  }

  class ResultList {
    var items: seq<Option<Result>>

    constructor (items: seq<Option<Result>>)
      ensures this.items == items
    {
      this.items := items;
    }

    /** Unlinks the first element with this datum, if there is one. */
    method Remove(datum: Option<Result>) returns (removed: bool)
      modifies this
      ensures removed <==> datum in old(items)
      ensures !removed ==> items == old(items)
      ensures removed ==> exists k ::
        && 0 <= k < |old(items)| && old(items)[k] == datum && datum !in old(items)[..k]
        && items == old(items)[..k] + old(items)[k + 1..]
    {
      for i := 0 to |items|
        invariant items == old(items) && datum !in items[..i]
      {
        if items[i] == datum {
          items := items[..i] + items[i + 1..];
          return true;
        }
      }
      assert items[..|items|] == items;
      return false;
    }

    /** The caller owns the detached winner; without one the list is left intact. */
    method SelectAndDetachFirstRetrieved() returns (winner: Option<Result>)
      modifies this
      ensures var k := FirstRetrieved(old(items));
        if k == |old(items)| then winner == None && items == old(items)
        else winner == old(items)[k] && items == old(items)[..k] + old(items)[k + 1..]
    {
      ghost var first := FirstRetrieved(items);
      for i := 0 to |items|
        invariant items == old(items) && i <= first
      {
        if Retrieved(items[i]) {
          winner := items[i];
          var removed := Remove(winner);
          return;
        }
      }
      return None;
    }

    /** The status of the last candidate, for diagnostics. */
    method SummarizeBootstrapFailure() returns (status: CandidateStatus)
      ensures status == LastStatus(items)
      ensures items != [] && items[|items| - 1].Some? ==> status == items[|items| - 1].value.status
      ensures items == [] || items[|items| - 1] == None ==> status == NoMmsServer
    {
      if |items| == 0 { return NoMmsServer; }
      var last := items[|items| - 1];
      if last == None { return NoMmsServer; }
      return last.value.status;
    }
  }

  function LastStatus(items: seq<Option<Result>>): CandidateStatus {
    if items != [] && items[|items| - 1].Some? then items[|items| - 1].value.status else NoMmsServer
  }
}
