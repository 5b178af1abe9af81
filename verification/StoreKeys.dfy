/** Every key the system writes into the one shared KV store, and the proof that
    keys written for different purposes never collide. */
module StoreKeys {
  import opened GoText

  /** `KeyBuilder.BuildKey`: the key a reader looks under. */
  function BuildKey(namespace: string, table: string, rendering: string): string {
    if namespace != "" then namespace + ":" + table + ":" + rendering
    else table + ":" + rendering
  }

  /** The key `Translator.ToKV` writes under, with the default format "%s:%v". */
  function KvKey(table: string, rendering: string): string {
    table + ":" + rendering
  }

  /** Readers look where writers write exactly when the table has no namespace:
      the translator never uses one. */
  lemma NamespaceMustBeEmpty(namespace: string, table: string, rendering: string)
    ensures BuildKey(namespace, table, rendering) == KvKey(table, rendering) <==> namespace == ""
  {
    if namespace != "" {
      assert |BuildKey(namespace, table, rendering)| > |KvKey(table, rendering)|;
    }
  }

  /** What a key in the store is for. */
  datatype StoreKey =
    | Data(table: string, rendering: string)
    | WalEntry(table: string, id: string)
    | WalStamp(table: string, stamp: int, id: string)
    | WalAck(table: string, id: string)
    | QueueList(table: string)
    | QueueGlobal

  /** The text the code formats for each purpose. */
  function Text(k: StoreKey): string {
    match k
    case Data(t, r) => KvKey(t, r)
    case WalEntry(t, id) => "wal:" + t + ":entry:" + id
    case WalStamp(t, n, id) => "wal:" + t + ":timestamp:" + Dec(n) + ":" + id
    case WalAck(t, id) => "wal:" + t + ":ack:" + id
    case QueueList(t) => "wbq:" + t
    case QueueGlobal => "wbq:global"
  }

  /** Table names the code can tell apart: colon-free and none of the reserved words. */
  predicate GoodTable(t: string) {
    ':' !in t && t != "wal" && t != "wbq"
  }

  predicate GoodKey(k: StoreKey) {
    k.QueueGlobal? || (GoodTable(k.table) && (k.QueueList? ==> k.table != "global"))
  }

  /* The proof reads a key back field by field: first segment, table, kind, rest. */

  function Head(k: StoreKey): string {
    match k
    case Data(t, _) => t
    case WalEntry(_, _) | WalStamp(_, _, _) | WalAck(_, _) => "wal"
    case QueueList(_) | QueueGlobal => "wbq"
  }

  function AfterHead(k: StoreKey): string {
    match k
    case Data(_, r) => r
    case WalEntry(t, id) => t + ":" + ("entry" + ":" + id)
    case WalStamp(t, n, id) => t + ":" + ("timestamp" + ":" + (Dec(n) + ":" + id))
    case WalAck(t, id) => t + ":" + ("ack" + ":" + id)
    case QueueList(t) => t
    case QueueGlobal => "global"
  }

  /** Regrouping the segments of a formatted WAL key. */
  lemma Regroup(h: string, t: string, kind: string, rest: string)
    ensures (h + ":") + t + (":" + kind + ":") + rest == h + ":" + (t + ":" + (kind + ":" + rest))
  {
  }

  lemma TextSplits(k: StoreKey)
    ensures Text(k) == Head(k) + ":" + AfterHead(k)
  {
    match k
    case Data(t, r) =>
    case WalEntry(t, id) =>
      assert "wal" + ":" == "wal:" && ":" + "entry" + ":" == ":entry:";
      Regroup("wal", t, "entry", id);
    case WalStamp(t, n, id) =>
      assert "wal" + ":" == "wal:" && ":" + "timestamp" + ":" == ":timestamp:";
      Regroup("wal", t, "timestamp", Dec(n) + ":" + id);
      assert Text(k) == ("wal:" + t + ":timestamp:") + (Dec(n) + ":" + id);
    case WalAck(t, id) =>
      assert "wal" + ":" == "wal:" && ":" + "ack" + ":" == ":ack:";
      Regroup("wal", t, "ack", id);
    case QueueList(t) => assert "wbq" + ":" == "wbq:";
    case QueueGlobal => assert "wbq" + ":" + "global" == "wbq:global";
  }

  predicate IsWal(k: StoreKey) { k.WalEntry? || k.WalStamp? || k.WalAck? }

  function WalKind(k: StoreKey): string
    requires IsWal(k)
  {
    match k case WalEntry(_, _) => "entry" case WalStamp(_, _, _) => "timestamp" case WalAck(_, _) => "ack"
  }

  function WalRest(k: StoreKey): string
    requires IsWal(k)
  {
    match k
    case WalEntry(_, id) => id
    case WalStamp(_, n, id) => Dec(n) + ":" + id
    case WalAck(_, id) => id
  }

  lemma WalKeysNeverCollide(a: StoreKey, b: StoreKey)
    requires IsWal(a) && IsWal(b) && GoodKey(a) && GoodKey(b)
    requires AfterHead(a) == AfterHead(b)
    ensures a == b
  {
    SplitAtFirst(':', a.table, WalKind(a) + ":" + WalRest(a), b.table, WalKind(b) + ":" + WalRest(b));
    SplitAtFirst(':', WalKind(a), WalRest(a), WalKind(b), WalRest(b));
    assert WalKind(a)[0] == WalKind(b)[0];
    if a.WalStamp? && b.WalStamp? {
      DecInjective(a.stamp, b.stamp);
      DecInjective(b.stamp, a.stamp);
      SplitAtFirst(':', Dec(a.stamp), a.id, Dec(b.stamp), b.id);
    }
  }

  /** Data, WAL entry, WAL timestamp, WAL acknowledgement and queue keys never collide,
      across purposes or within one. */
  lemma KeysNeverCollide(a: StoreKey, b: StoreKey)
    requires GoodKey(a) && GoodKey(b)
    ensures Text(a) == Text(b) <==> a == b
  {
    if Text(a) == Text(b) {
      TextSplits(a);
      TextSplits(b);
      SplitAtFirst(':', Head(a), AfterHead(a), Head(b), AfterHead(b));
      assert "wal"[1] == 'a' && "wbq"[1] == 'b';
      if IsWal(a) && IsWal(b) {
        WalKeysNeverCollide(a, b);
      }
    }
  }

  /** A table called `global` shares its list with the global queue. */
  lemma GlobalTableCollides()
    ensures Text(QueueList("global")) == Text(QueueGlobal)
  {
    assert Text(QueueList("global")) == "wbq:global";
  }

  /** `generateOperationID`: "{table}_{key}_{nanoseconds}". */
  function OperationId(table: string, rendering: string, nanos: int): string {
    table + "_" + rendering + "_" + Dec(nanos)
  }

  /** For one table, an identifier determines the key rendering and the instant. */
  lemma OperationIdInjective(table: string, r0: string, n0: int, r1: string, n1: int)
    ensures OperationId(table, r0, n0) == OperationId(table, r1, n1) <==> r0 == r1 && n0 == n1
  {
    if OperationId(table, r0, n0) == OperationId(table, r1, n1) {
      DecInjective(n0, n1);
      DecInjective(n1, n0);
      SplitAtLast('_', table + "_" + r0, Dec(n0), table + "_" + r1, Dec(n1));
      CancelPrefix(table + "_", r0, r1);
    }
  }

  /** Across tables an identifier alone is ambiguous, since both parts may hold the
      separator; WAL entry keys stay distinct because they also carry the table. */
  lemma OperationIdAmbiguousAcrossTables(n: int)
    ensures OperationId("a_b", "c", n) == OperationId("a", "b_c", n)
  {
    assert "a_b" + "_" + "c" == "a" + "_" + "b_c";
  }
}
