/** The server's usage statistics: a request counter, per-endpoint and
    per-status-code counts, and an error counter. The statistics are kept
    in memory here; the JSON file they are read from and written back to on
    every update, the rotating log files and the console output are not
    modelled. */
module ServerStats {
  import opened Text

  /** Some key of a non-empty map. */
  ghost function PickKey(m: map<string, nat>): string
    requires |m| > 0
  {
    var k :| k in m; k
  }

  /** The sum of a count map's values. */
  ghost function SumValues(m: map<string, nat>): nat
    decreases |m|
  {
    if |m| == 0 then 0
    else
      var k := PickKey(m);
      assert |m - {k}| < |m| by { assert m.Keys - {k} < m.Keys; assert (m - {k}).Keys == m.Keys - {k}; }
      m[k] + SumValues(m - {k})
  }

  /** Removing a key takes exactly its count off the sum, whichever key the
      sum happened to pick first. */
  lemma {:induction false} SumRemove(m: map<string, nat>, k: string)
    requires k in m
    ensures SumValues(m) == m[k] + SumValues(m - {k})
    decreases |m|
  {
    var j := PickKey(m);
    if j != k {
      assert (m - {j}).Keys == m.Keys - {j};
      assert (m - {k}).Keys == m.Keys - {k};
      SumRemove(m - {j}, k);
      SumRemove(m - {k}, j);
      assert m - {j} - {k} == m - {k} - {j};
    }
  }

  /** `counts[key]` created at 0 when absent, then increased by one. */
  function Increment(m: map<string, nat>, key: string): (r: map<string, nat>)
    ensures r.Keys == m.Keys + {key}
    ensures r[key] == (if key in m then m[key] else 0) + 1
    ensures forall j :: j in m && j != key ==> r[j] == m[j]
  {
    m[key := (if key in m then m[key] else 0) + 1]
  }

  /** One increment adds exactly one to the sum. */
  lemma IncrementAddsOne(m: map<string, nat>, key: string)
    ensures SumValues(Increment(m, key)) == SumValues(m) + 1
  {
    var r := Increment(m, key);
    SumRemove(r, key);
    if key in m {
      SumRemove(m, key);
      assert r - {key} == m - {key};
    } else {
      assert r - {key} == m;
    }
  }

  /** The counting step itself: a missing key is created at 0, then the
      key's count is increased. */
  method CountOne(m: map<string, nat>, key: string) returns (r: map<string, nat>)
    ensures r == Increment(m, key)
  {
    r := m;
    if key !in r {
      r := r[key := 0];
    }
    r := r[key := r[key] + 1];
  }

  /** One request counted under its endpoint and its status-code key: when
      both maps summed to the old total, both sum to the new one. */
  method Tally(endpoints0: map<string, nat>, codes0: map<string, nat>, total0: nat, endpoint: string, code: string)
    returns (endpoints: map<string, nat>, codes: map<string, nat>, total: nat)
    requires SumValues(endpoints0) == total0 && SumValues(codes0) == total0
    ensures endpoints == Increment(endpoints0, endpoint) && codes == Increment(codes0, code)
    ensures total == total0 + 1
    ensures SumValues(endpoints) == total && SumValues(codes) == total
  {
    endpoints := CountOne(endpoints0, endpoint);
    codes := CountOne(codes0, code);
    total := total0 + 1;
    IncrementAddsOne(endpoints0, endpoint);
    IncrementAddsOne(codes0, code);
  }

  /** The start-up request's status code renders as "200". */
  lemma RenderOk()
    ensures IntToString(200) == "200"
  {
    assert NatToString(2) == "2";
    assert NatToString(20) == NatToString(2) + [DigitChar(0)];
    assert NatToString(200) == NatToString(20) + [DigitChar(0)];
  }

  /** A snapshot of the counters, as `get_stats` reports them. */
  datatype Stats = Stats(totalRequests: nat, endpoints: map<string, nat>, statusCodes: map<string, nat>, errors: nat)

  const SystemEndpoint: string := "SYSTEM"

  class LogManager {
    var totalRequests: nat
    var endpoints: map<string, nat>
    var statusCodes: map<string, nat>
    var errors: nat

    /** Every request is counted once under its endpoint and once under its
        status code. */
    ghost predicate Valid()
      reads this
    {
      SumValues(endpoints) == totalRequests && SumValues(statusCodes) == totalRequests
    }

    /** Fresh statistics, then the start-up request logged under "SYSTEM"
        with status 200. */
    constructor ()
      ensures Valid()
      ensures totalRequests == 1 && errors == 0
      ensures endpoints == map[SystemEndpoint := 1] && statusCodes == map["200" := 1]
    {
      totalRequests, endpoints, statusCodes, errors := 0, map[], map[], 0;
      new;
      RenderOk();
      LogRequest(SystemEndpoint, "LogManager initialized", 200);
    }

    /** `_update_request_stats(endpoint, status_code)`. */
    method UpdateRequestStats(endpoint: string, statusCode: int)
      requires Valid()
      modifies this
      ensures Valid()
      ensures totalRequests == old(totalRequests) + 1
      ensures endpoints == Increment(old(endpoints), endpoint)
      ensures statusCodes == Increment(old(statusCodes), IntToString(statusCode))
      ensures errors == old(errors)
    {
      var code := IntToString(statusCode);
      var byEndpoint, byCode, total := Tally(endpoints, statusCodes, totalRequests, endpoint, code);
      totalRequests, endpoints, statusCodes := total, byEndpoint, byCode;
    }

    /** `_update_error_stats()`: only the error counter moves. */
    method UpdateErrorStats()
      requires Valid()
      modifies this
      ensures Valid()
      ensures errors == old(errors) + 1
      ensures totalRequests == old(totalRequests) && endpoints == old(endpoints) && statusCodes == old(statusCodes)
    {
      errors := errors + 1;
    }

    /** `log_request(endpoint, client_ip, ..., status_code)`: the log line is
        not modelled; the request statistics are updated exactly once. */
    method LogRequest(endpoint: string, clientIp: string, statusCode: int)
      requires Valid()
      modifies this
      ensures Valid()
      ensures totalRequests == old(totalRequests) + 1
      ensures endpoints == Increment(old(endpoints), endpoint)
      ensures statusCodes == Increment(old(statusCodes), IntToString(statusCode))
      ensures errors == old(errors)
    {
      UpdateRequestStats(endpoint, statusCode);
    }

    /** `log_error(error_type, message, ...)`: the error statistics are
        updated exactly once. */
    method LogError(errorType: string, message: string)
      requires Valid()
      modifies this
      ensures Valid()
      ensures errors == old(errors) + 1
      ensures totalRequests == old(totalRequests) && endpoints == old(endpoints) && statusCodes == old(statusCodes)
    {
      UpdateErrorStats();
    }

    /** `get_stats()`. */
    method GetStats() returns (s: Stats)
      requires Valid()
      ensures s == Stats(totalRequests, endpoints, statusCodes, errors)
      ensures SumValues(s.endpoints) == s.totalRequests == SumValues(s.statusCodes)
    {
      s := Stats(totalRequests, endpoints, statusCodes, errors);
    }
  }

  /** Two requests that differ in status code are counted under different
      keys, so no status code's count absorbs another's. */
  lemma StatusKeysSeparate(a: int, b: int)
    requires a != b
    ensures IntToString(a) != IntToString(b)
  {
    if IntToString(a) == IntToString(b) {
      IntToStringInjective(a, b);
    }
  }
}
