/** Entity ids as strings: an app id, a dot, and a partition number in decimal. */
module PollerId {
  import opened Text

  datatype Option<T> = None | Some(value: T)

  function MakeId(app: string, partition: nat): string {
    app + "." + Itoa(partition)
  }

  /** `GetAppName`: everything before the last dot. */
  function GetAppName(id: string): string
    requires '.' in id
  {
    id[..LastIndex(id, '.')]
  }

  /** `GetPartitionId`: the number after the last dot; a conversion error yields
      what `strconv.Atoi` returns beside it. */
  function GetPartitionId(id: string): int
    requires '.' in id
  {
    match ParseInt(id[LastIndex(id, '.') + 1..])
    case Int(v) => v
    case BadSyntax => 0
    case OutOfRange(v) => v
  }

  /** The poller factory's decoding: split at every dot and use the first two
      parts. `None` where it panics. */
  function FactoryDecode(id: string): Option<(string, int)> {
    var seq_ := Split(id, '.');
    if |seq_| < 2 then None
    else match ParseInt(seq_[1])
         case Int(v) => Some((seq_[0], v))
         case _ => None
  }

  /** A digit string has no dot, so the last dot of an id is the one `MakeId` put there. */
  lemma LastDot(app: string, partition: nat)
    ensures LastIndex(MakeId(app, partition), '.') == |app|
  {
    var id, digits := MakeId(app, partition), Itoa(partition);
    assert id == app + (['.'] + digits);
    assert id[|app|] == '.';
    forall j | |app| < j < |id| ensures id[j] != '.' {
      assert id[j] == digits[j - |app| - 1] && digits[j - |app| - 1] in digits;
    }
  }

  /** Decoding an id gives back the app, whatever characters it has, and the partition. */
  lemma RoundTrip(app: string, partition: nat)
    requires partition <= MAX_INT64
    ensures var id := MakeId(app, partition);
            '.' in id && GetAppName(id) == app && GetPartitionId(id) == partition
  {
    LastDot(app, partition);
    var id := MakeId(app, partition);
    assert id[|app|] == '.';
    assert id[..|app|] == app && id[|app| + 1..] == Itoa(partition);
    ParseIntOfItoa(partition);
  }

  lemma Injective(a: string, p: nat, b: string, q: nat)
    requires MakeId(a, p) == MakeId(b, q)
    ensures a == b && p == q
  {
    LastDot(a, p);
    LastDot(b, q);
    var id := MakeId(a, p);
    assert id[..|a|] == a && id[..|a|] == b;
    assert id[|a| + 1..] == Itoa(p) && id[|a| + 1..] == Itoa(q);
    assert p == Decimal(Itoa(p)) == Decimal(Itoa(q)) == q;
  }

  /** The factory recovers the pair exactly for app ids without a dot. */
  lemma FactoryAgreesIff(app: string, partition: nat)
    requires partition <= MAX_INT64
    ensures FactoryDecode(MakeId(app, partition)) == Some((app, partition)) <==> '.' !in app
  {
    var id, digits := MakeId(app, partition), Itoa(partition);
    var parts := Split(id, '.');
    if '.' !in app {
      SplitAtFirst(app, '.', digits);
      assert '.' !in digits;
      assert parts == [app, digits];
      ParseIntOfItoa(partition);
    } else {
      assert parts[0] in parts && '.' !in parts[0];
    }
  }

  /** For instance. */
  lemma IdExample()
    ensures MakeId("app", 12) == "app.12"
  {
    assert Itoa(1) == "1" && Itoa(12) == "12";
  }
}
