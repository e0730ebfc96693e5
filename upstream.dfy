/** The V2Ray stats service as the exporter sees it during one scrape: the
    response records, and a client that answers with given responses and
    logs every request made of it. */
module Upstream {
  import opened Wrappers

  type uint32 = x: int | 0 <= x < 0x1_0000_0000
  type uint64 = x: int | 0 <= x < 0x1_0000_0000_0000_0000
  type int64 = x: int | -0x8000_0000_0000_0000 <= x < 0x8000_0000_0000_0000

  /** The fields of the system-stats response that the exporter reads. */
  datatype SysStats = SysStats(
    uptime: uint32,
    numGoroutine: uint32,
    alloc: uint64,
    totalAlloc: uint64,
    sys: uint64,
    mallocs: uint64,
    frees: uint64,
    numGC: uint32,
    pauseTotalNs: uint64)

  /** One named counter of the stats-query response. */
  datatype Stat = Stat(name: string, value: int64)

  /** How the endpoint behaves during one scrape: whether the connection is
      made before the timeout, and each call's response (None: the call
      returns an error). */
  datatype Responses = Responses(reachable: bool, sysStats: Option<SysStats>, stats: Option<seq<Stat>>)

  datatype Request = Connect(endpoint: string, timeout: nat) | GetSysStats | QueryStats(reset: bool) | Close

  /** The connection and StatsServiceClient of one scrape. */
  class StatsClient {
    const responses: Responses
    var requests: seq<Request>

    constructor (responses: Responses)
      ensures this.responses == responses && requests == []
    {
      this.responses := responses;
      requests := [];
    }

    /** grpc.DialContext with a blocking dial bounded by `timeout`. */
    method Dial(endpoint: string, timeout: nat) returns (ok: bool)
      modifies this
      ensures ok == responses.reachable
      ensures requests == old(requests) + [Connect(endpoint, timeout)]
    {
      requests := requests + [Connect(endpoint, timeout)];
      ok := responses.reachable;
    }

    method GetSysStats() returns (r: Option<SysStats>)
      modifies this
      ensures r == responses.sysStats
      ensures requests == old(requests) + [Request.GetSysStats]
    {
      requests := requests + [Request.GetSysStats];
      r := responses.sysStats;
    }

    method QueryStats(reset: bool) returns (r: Option<seq<Stat>>)
      modifies this
      ensures r == responses.stats
      ensures requests == old(requests) + [Request.QueryStats(reset)]
    {
      requests := requests + [Request.QueryStats(reset)];
      r := responses.stats;
    }

    method Close()
      modifies this
      ensures requests == old(requests) + [Request.Close]
    {
      requests := requests + [Request.Close];
    }
  }
}
