/**
 * The InfluxDB 0.8 query builder: metrics are appended to a JSON "points" list,
 * and a commit wraps that list in a fixed header and footer and posts it with
 * an HTTP/1.0 request carrying its Content-Length.
 */
module Influxdb8 {
  import opened Common

  const QueryHeader: string :=
    "[{\"name\":\"metric_data\",\"columns\":[\"time\", \"metric_id\", \"name\", \"interval\", \"value\", \"value_type\"],\"points\":["
  const QueryFooter: string := "]}]"

  /**
   * A metric as the builder prints it. The value is a double whose decimal
   * printing is not modelled, so it is given as text.
   */
  datatype Metric = Metric(ctime: int, metricId: nat, name: string, interval: nat, valueText: string, valueType: int)

  /** One point: `[ctime,metric_id,"name",interval,value,value_type]`. */
  function Record(m: Metric): (r: string)
    ensures |r| >= 2 && r[0] == '[' && r[|r| - 1] == ']'
  {
    "[" + IntToString(m.ctime) + "," + NatToString(m.metricId) + ","
      + "\"" + m.name + "\"" + "," + NatToString(m.interval) + ","
      + m.valueText + "," + IntToString(m.valueType) + "]"
  }

  /** The request line of every commit. */
  function PostHeader(user: string, passwd: string, db: string): string
  {
    "POST " + "/db/" + db + "/series?u=" + user + "&p=" + passwd + "&time_precision=s" + " HTTP/1.0\n"
  }

  /** The posted body: the points between the fixed header and footer. */
  function Body(query: string): string
  {
    QueryHeader + query + QueryFooter
  }

  /** The Content-Length a commit declares. */
  function ContentLength(query: string): (n: nat)
    ensures n == |query| + |QueryHeader| + |QueryFooter|
    ensures n == |Body(query)|
  {
    |query| + |QueryHeader| + |QueryFooter|
  }

  /** The full request: request line, Content-Length line, blank line, body. */
  function Request(postHeader: string, query: string): (r: string)
    ensures |r| >= |postHeader| + ContentLength(query)
    ensures r[..|postHeader|] == postHeader
    ensures r[|r| - ContentLength(query)..] == Body(query)
  {
    var head := postHeader + "Content-Length: " + NatToString(ContentLength(query)) + "\n" + "\n";
    assert (head + Body(query))[..|postHeader|] == postHeader;
    assert (head + Body(query))[|head|..] == Body(query);
    head + Body(query)
  }

  /** The message `_connect_socket` throws when the connection is not established. */
  function ConnectError(addr: string, port: nat, socketError: string): (r: string)
    ensures |r| > 53 + |addr|
    ensures r[..53 + |addr|] == "influxdb: couldn't connect to influxdb with address '" + addr
  {
    var head := "influxdb: couldn't connect to influxdb with address '" + addr;
    assert (head + "' and port '" + NatToString(port) + "': " + socketError)[..|head|] == head;
    head + "' and port '" + NatToString(port) + "': " + socketError
  }

  /** A joined list of points is empty exactly when there are no points. */
  lemma {:induction false} JoinEmptyIff(records: seq<string>)
    requires forall i :: 0 <= i < |records| ==> |records[i]| > 0
    ensures (Join(records, ",") == "") <==> records == []
  {
    if |records| > 1 {
      JoinEmptyIff(records[1..]);
    }
  }

  datatype CommitOutcome =
    | NothingToSend
    | Sent(request: string)
    | Failed(message: string)

  class Influxdb8Writer {
    var query: string
    var postHeader: string
    /** The points written since the last clear or commit, in order. */
    ghost var records: seq<string>

    ghost predicate Valid()
      reads this
    {
      && (forall i :: 0 <= i < |records| ==> |records[i]| > 0)
      && query == Join(records, ",")
    }

    /** Builds the request line from the database name and the credentials. */
    constructor (user: string, passwd: string, db: string)
      ensures Valid() && records == []
      ensures postHeader == "POST /db/" + db + "/series?u=" + user + "&p=" + passwd + "&time_precision=s HTTP/1.0\n"
    {
      query := "";
      records := [];
      postHeader := PostHeader(user, passwd, db);
    }

    /** Empties the query. */
    method Clear()
      requires Valid()
      modifies this
      ensures Valid() && query == "" && records == [] && postHeader == old(postHeader)
    {
      query := "";
      records := [];
    }

    /** Appends one point, preceded by a comma unless it is the first. */
    method Write(m: Metric)
      requires Valid()
      modifies this
      ensures Valid() && postHeader == old(postHeader)
      ensures records == old(records) + [Record(m)]
      ensures query == if old(query) == "" then Record(m) else old(query) + "," + Record(m)
    {
      JoinEmptyIff(records);
      JoinSnoc(records, Record(m), ",");
      var s := Record(m);
      if query != "" {
        query := query + ",";
      }
      query := query + s;
      records := records + [s];
    }

    /**
     * Posts the points. The connection attempt and the number of bytes the
     * socket accepted are inputs. Only a complete write empties the query.
     */
    method Commit(connected: bool, written: nat) returns (outcome: CommitOutcome)
      requires Valid()
      modifies this
      ensures Valid() && postHeader == old(postHeader)
      ensures old(query) == "" ==> outcome == NothingToSend && query == old(query) && records == old(records)
      ensures old(query) != "" && !connected ==> outcome.Failed? && query == old(query) && records == old(records)
      ensures old(query) != "" && connected && written != |Request(postHeader, old(query))| ==>
        outcome.Failed? && query == old(query) && records == old(records)
      ensures old(query) != "" && connected && written == |Request(postHeader, old(query))| ==>
        outcome == Sent(Request(postHeader, old(query))) && query == "" && records == []
    {
      if query == "" {
        return NothingToSend;
      }
      var finalQuery := Request(postHeader, query);
      if !connected {
        return Failed("influxdb: couldn't connect to influxdb");
      }
      if written != |finalQuery| {
        return Failed("influxdb: couldn't commit data to influxdb");
      }
      query := "";
      records := [];
      outcome := Sent(finalQuery);
    }
  }

  /**
   * The constructor of the source: it first makes a trial connection to the
   * server, and throws when that fails. Whether the connection was established,
   * and the socket's error text, are inputs.
   */
  method Open(user: string, passwd: string, addr: string, port: nat, db: string, connected: bool, socketError: string)
    returns (w: Influxdb8Writer?, error: Option<string>)
    ensures !connected ==> w == null && error == Some(ConnectError(addr, port, socketError))
    ensures connected ==> error == None && w != null && fresh(w) && w.Valid() && w.records == [] && w.query == ""
    ensures connected ==> w.postHeader == PostHeader(user, passwd, db)
  {
    if !connected {
      return null, Some(ConnectError(addr, port, socketError));
    }
    w := new Influxdb8Writer(user, passwd, db);
    error := None;
  }
}
