/** The status table the terminal dashboard shows: one row per endpoint,
    held by the application object together with the configuration. */
module AppState {
  import opened Yarn

  /** What a row shows of an endpoint. */
  datatype ApiInformation = ApiInformation(name: string, url: string, httpMethod: string, status: string)

  /** A row of the table: its id, what it shows, and the polling interval. */
  datatype ListRequests = ListRequests(id: nat, data: ApiInformation, interval: nat)

  /** The status a freshly listed endpoint shows, spelled as the program
      spells it. */
  const Waiting: string := "WAINTING"

  /** The row listed for the endpoint `api` at position `id` of the
      configuration. */
  function WaitingRow(id: nat, api: Api): ListRequests
  {
    ListRequests(id, ApiInformation(api.name, api.request.url, ToString(api.request.httpMethod), Waiting), api.interval)
  }

  /** The rows listed for a whole configuration, in iteration order: ids
      count from 0, every row is waiting, and name, url, method and
      interval come from the endpoint at the same position. */
  function WaitingRows(requests: seq<(string, Api)>): (rows: seq<ListRequests>)
    ensures |rows| == |requests|
    ensures forall i :: 0 <= i < |rows| ==>
      && rows[i].id == i
      && rows[i].data.status == Waiting
      && rows[i].data.name == requests[i].1.name
      && rows[i].data.url == requests[i].1.request.url
      && rows[i].data.httpMethod == ToString(requests[i].1.request.httpMethod)
      && rows[i].interval == requests[i].1.interval
  {
    seq(|requests|, i requires 0 <= i < |requests| => WaitingRow(i, requests[i].1))
  }

  /** Listing the same configuration twice repeats the ids: the row at
      position k of either listing has id k. */
  lemma RelistRepeatsIds(before: seq<ListRequests>, requests: seq<(string, Api)>, k: nat)
    requires k < |requests|
    ensures var once := before + WaitingRows(requests);
      var twice := once + WaitingRows(requests);
      twice[|before| + k].id == twice[|before| + |requests| + k].id == k
  {
  }

  class App {
    var configs: ApisConfig
    var apisInfos: seq<ListRequests>

    /** The configuration is stored as given, and the table starts empty. */
    constructor (configs: ApisConfig)
      requires configs.Valid()
      ensures this.configs == configs && apisInfos == []
    {
      this.configs := configs;
      apisInfos := [];
    }

    /** Replace the whole table with `result`; the configuration stays. */
    method AppendSatus2(result: seq<ListRequests>)
      modifies this
      ensures apisInfos == result && configs == old(configs)
    {
      apisInfos := result;
    }

    /** Append one waiting row per configured endpoint after the rows
      already there; the configuration is not changed. */
    method FormatApiInfos()
      modifies this
      ensures configs == old(configs)
      ensures apisInfos == old(apisInfos) + WaitingRows(configs.requests)
    {
      var requests := configs.requests;
      for id := 0 to |requests|
        invariant configs == old(configs)
        invariant |apisInfos| == |old(apisInfos)| + id
        invariant apisInfos[..|old(apisInfos)|] == old(apisInfos)
        invariant forall k :: 0 <= k < id ==> apisInfos[|old(apisInfos)| + k] == WaitingRow(k, requests[k].1)
      {
        var config := requests[id];
        var api := ApiInformation(config.1.name, config.1.request.url, ToString(config.1.request.httpMethod), Waiting);
        var newRequest := ListRequests(id, api, config.1.interval);
        apisInfos := apisInfos + [newRequest];
      }
      assert apisInfos == old(apisInfos) + WaitingRows(requests);
    }
  }

  /** A fresh application lists every endpoint once, with ids 0..n-1; a
      second listing appends the same rows again. */
  method ListTwice(configs: ApisConfig) returns (app: App)
    requires configs.Valid()
    ensures app.configs == configs
    ensures app.apisInfos == WaitingRows(configs.requests) + WaitingRows(configs.requests)
  {
    app := new App(configs);
    app.FormatApiInfos();
    app.FormatApiInfos();
  }
}
