/**
 * The `bridges` table: records linking a Slack channel to a Zulip
 * (stream, topic) pair, with the three Sequelize operations the bridge uses
 * (`create`, `findOne`, `destroy`) over an in-memory sequence of rows kept
 * in insertion order.
 */
module Bridges {
  import opened Wrappers

  /** One row of the table. No column is unique. */
  datatype Bridge = Bridge(slackChannelId: string, zulipStream: string, zulipTopic: string)

  /** The two `where` filters the bridge passes to `findOne` and `destroy`. */
  datatype Where =
    | ChannelIs(channel: string)
    | TargetIs(stream: string, topic: string)

  /** A row satisfies a filter when every field named in it is equal, case-sensitively. */
  predicate Matches(b: Bridge, w: Where) {
    match w
    case ChannelIs(c) => b.slackChannelId == c
    case TargetIs(s, t) => b.zulipStream == s && b.zulipTopic == t
  }

  /** Position of the first row satisfying `w`, or `|rows|` when none does. */
  function FirstMatch(rows: seq<Bridge>, w: Where): (i: nat)
    ensures i <= |rows|
    ensures forall j :: 0 <= j < i ==> !Matches(rows[j], w)
    ensures i < |rows| ==> Matches(rows[i], w)
  {
    if |rows| == 0 then 0
    else if Matches(rows[0], w) then 0
    else 1 + FirstMatch(rows[1..], w)
  }

  /**
   * `Bridge.findOne({where})`: the first row, in table order, that satisfies
   * the filter, or nothing when no row does. The query is `LIMIT 1` with no
   * `ORDER BY`, so SQLite returns the first row it scans; for these
   * unindexed columns that is rowid order, which is the order of creation,
   * and the sequence keeps rows in that order.
   */
  function FindOne(rows: seq<Bridge>, w: Where): (r: Option<Bridge>)
    ensures r.None? <==> forall i :: 0 <= i < |rows| ==> !Matches(rows[i], w)
    ensures r.Some? ==> exists i :: 0 <= i < |rows| && rows[i] == r.value && Matches(rows[i], w) &&
                                    forall j :: 0 <= j < i ==> !Matches(rows[j], w)
  {
    var i := FirstMatch(rows, w);
    if i < |rows| then Some(rows[i]) else None
  }

  /** Number of rows satisfying `w`. */
  function CountMatching(rows: seq<Bridge>, w: Where): (n: nat)
    ensures n <= |rows|
    ensures n == 0 <==> forall i :: 0 <= i < |rows| ==> !Matches(rows[i], w)
    ensures n == |rows| <==> forall i :: 0 <= i < |rows| ==> Matches(rows[i], w)
  {
    if |rows| == 0 then 0
    else (if Matches(rows[0], w) then 1 else 0) + CountMatching(rows[1..], w)
  }

  /** The table after `Bridge.destroy({where})`: every satisfying row is gone. */
  function Remaining(rows: seq<Bridge>, w: Where): (r: seq<Bridge>)
    ensures |r| + CountMatching(rows, w) == |rows|
    ensures forall b :: b in r <==> b in rows && !Matches(b, w)
  {
    if |rows| == 0 then []
    else (if Matches(rows[0], w) then [] else [rows[0]]) + Remaining(rows[1..], w)
  }

  /** Destroying distributes over concatenation, so surviving rows keep their order. */
  lemma {:induction false} RemainingConcat(a: seq<Bridge>, b: seq<Bridge>, w: Where)
    ensures Remaining(a + b, w) == Remaining(a, w) + Remaining(b, w)
  {
    if |a| == 0 {
      assert a + b == b;
    } else {
      var head := if Matches(a[0], w) then [] else [a[0]];
      assert (a + b)[0] == a[0];
      assert (a + b)[1..] == a[1..] + b;
      calc {
        Remaining(a + b, w);
        head + Remaining(a[1..] + b, w);
        { RemainingConcat(a[1..], b, w); }
        head + (Remaining(a[1..], w) + Remaining(b, w));
        (head + Remaining(a[1..], w)) + Remaining(b, w);
        Remaining(a, w) + Remaining(b, w);
      }
    }
  }

  /** Destroying with a filter no row satisfies leaves the table unchanged. */
  lemma {:induction false} RemainingNoMatch(rows: seq<Bridge>, w: Where)
    requires forall i :: 0 <= i < |rows| ==> !Matches(rows[i], w)
    ensures Remaining(rows, w) == rows
  {
    if |rows| > 0 {
      RemainingNoMatch(rows[1..], w);
      assert rows == [rows[0]] + rows[1..];
    }
  }

  /** Unlinking twice leaves the same table as unlinking once. */
  lemma RemainingIdempotent(rows: seq<Bridge>, w: Where)
    ensures Remaining(Remaining(rows, w), w) == Remaining(rows, w)
  {
    var r := Remaining(rows, w);
    forall i | 0 <= i < |r| ensures !Matches(r[i], w) {
      assert r[i] in r;
    }
    RemainingNoMatch(r, w);
  }

  /**
   * A row appended by `create` is found only when no earlier row satisfies
   * the filter: the first match wins.
   */
  lemma {:induction false} FindOneAppend(rows: seq<Bridge>, b: Bridge, w: Where)
    ensures FindOne(rows + [b], w) ==
      if FindOne(rows, w).Some? then FindOne(rows, w)
      else if Matches(b, w) then Some(b)
      else None
  {
    FirstMatchAppend(rows, b, w);
  }

  lemma {:induction false} FirstMatchAppend(rows: seq<Bridge>, b: Bridge, w: Where)
    ensures FirstMatch(rows + [b], w) ==
      if FirstMatch(rows, w) < |rows| then FirstMatch(rows, w)
      else if Matches(b, w) then |rows|
      else |rows| + 1
  {
    if |rows| > 0 {
      assert (rows + [b])[1..] == rows[1..] + [b];
      FirstMatchAppend(rows[1..], b, w);
    }
  }

  /**
   * Destroying one channel's rows does not change what a lookup for
   * another channel finds.
   */
  lemma {:induction false} FindOtherChannelAfterDestroy(rows: seq<Bridge>, c: string, other: string)
    requires c != other
    ensures FindOne(Remaining(rows, ChannelIs(c)), ChannelIs(other)) == FindOne(rows, ChannelIs(other))
  {
    if |rows| > 0 {
      FindOtherChannelAfterDestroy(rows[1..], c, other);
      var tail := Remaining(rows[1..], ChannelIs(c));
      if Matches(rows[0], ChannelIs(c)) {
        assert Remaining(rows, ChannelIs(c)) == tail;
      } else {
        assert Remaining(rows, ChannelIs(c)) == [rows[0]] + tail;
        assert ([rows[0]] + tail)[1..] == tail;
      }
    }
  }

  /**
   * The table itself. Sequelize persists it in SQLite; here it is a
   * sequence of rows in insertion order.
   */
  class BridgeTable {
    var rows: seq<Bridge>

    /**
     * `sequelize.sync()` creates the table only when the database has none,
     * so the table starts with the rows stored by earlier runs.
     */
    constructor (stored: seq<Bridge>)
      ensures rows == stored
    {
      rows := stored;
    }

    /** `Bridge.create(...)`: appends the row, with no uniqueness check. */
    method Create(slackChannelId: string, zulipStream: string, zulipTopic: string) returns (b: Bridge)
      modifies this
      ensures b == Bridge(slackChannelId, zulipStream, zulipTopic)
      ensures rows == old(rows) + [b]
    {
      b := Bridge(slackChannelId, zulipStream, zulipTopic);
      rows := rows + [b];
    }

    /** `Bridge.destroy({where})`: removes every satisfying row and reports how many. */
    method Destroy(w: Where) returns (count: nat)
      modifies this
      ensures rows == Remaining(old(rows), w)
      ensures count == CountMatching(old(rows), w) == |old(rows)| - |rows|
      ensures forall i :: 0 <= i < |rows| ==> !Matches(rows[i], w)
    {
      count := CountMatching(rows, w);
      rows := Remaining(rows, w);
    }
  }
}
