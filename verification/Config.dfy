/** The worker's configuration: what `save` writes, what `load` makes of any file, and the token it keeps. */
module Config {
  import opened Types
  import opened Decimal
  import opened Yaml
  import opened YamlFiles

  datatype WorkerConfig = WorkerConfig(
    serverAddress: string,
    workerToken: string,
    enrollmentToken: string,
    baseImage: string,
    poolSize: int,
    sshUsername: string,
    sshPassword: string,
    httpPort: int,
    logLevel: string,
    useHTTPS: bool,
    tlsCertFingerprint: string,
    hostKeychainPassword: string
  )

  /** `InvalidFile` is a file the loader throws on; `NotModelled` one outside the modelled part of YAML. */
  datatype Loaded = Config(config: WorkerConfig) | InvalidFile | NotModelled

  const FIELDS := 12

  /** The keys, in the order they are saved. */
  function KeyName(i: nat): string
    requires i < FIELDS
  {
    match i
    case 0 => "server_address"
    case 1 => "worker_token"
    case 2 => "enrollment_token"
    case 3 => "base_image"
    case 4 => "pool_size"
    case 5 => "ssh_username"
    case 6 => "ssh_password"
    case 7 => "http_port"
    case 8 => "log_level"
    case 9 => "use_https"
    case 10 => "tls_cert_fingerprint"
    case _ => "host_keychain_password"
  }

  function FieldValue(c: WorkerConfig, i: nat): Value
    requires i < FIELDS
  {
    match i
    case 0 => Text(c.serverAddress)
    case 1 => Text(c.workerToken)
    case 2 => Text(c.enrollmentToken)
    case 3 => Text(c.baseImage)
    case 4 => Number(c.poolSize)
    case 5 => Text(c.sshUsername)
    case 6 => Text(c.sshPassword)
    case 7 => Number(c.httpPort)
    case 8 => Text(c.logLevel)
    case 9 => Flag(c.useHTTPS)
    case 10 => Text(c.tlsCertFingerprint)
    case _ => Text(c.hostKeychainPassword)
  }

  const DEFAULTS := WorkerConfig("localhost:9090", "", "", "minictl-tahoe-base", 2, "admin", "admin", 8080, "info", true, "", "")

  // Saving.

  /** Some fields of a configuration as single-quoted lines. */
  function FieldLines(c: WorkerConfig, order: seq<nat>): seq<Line>
    requires forall k :: 0 <= k < |order| ==> order[k] < FIELDS
  {
    seq(|order|, k requires 0 <= k < |order| => Field(Entry(KeyName(order[k]), FieldValue(c, order[k])), false))
  }

  const SAVED_ORDER: seq<nat> := [0, 1, 2, 3, 4, 5, 6, 7, 8, 9, 10, 11]

  function Save(c: WorkerConfig): string {
    PrintLines(FieldLines(c, SAVED_ORDER), "")
  }

  // Loading.

  function TextOr(d: Dict, key: string, default: string): string {
    if key in d && d[key].Text? then d[key].text else default
  }

  function NumberOr(d: Dict, key: string, default: int): int {
    if key in d && d[key].Number? then d[key].n else default
  }

  function FlagOr(d: Dict, key: string, default: bool): bool {
    if key in d && d[key].Flag? then d[key].on else default
  }

  /** A token the server issues to one worker. */
  predicate Issued(token: string) {
    "wkt_" <= token
  }

  /** The configuration a mapping stands for, whatever file it was read from. */
  function FromDict(d: Dict): WorkerConfig {
    var raw := TextOr(d, "worker_token", "");
    WorkerConfig(
      TextOr(d, "server_address", "localhost:9090"),
      if Issued(raw) then raw else "",
      TextOr(d, "enrollment_token", if Issued(raw) then "" else raw),
      TextOr(d, "base_image", "minictl-tahoe-base"),
      NumberOr(d, "pool_size", 2),
      TextOr(d, "ssh_username", "admin"),
      TextOr(d, "ssh_password", "admin"),
      NumberOr(d, "http_port", 8080),
      TextOr(d, "log_level", "info"),
      FlagOr(d, "use_https", true),
      TextOr(d, "tls_cert_fingerprint", ""),
      TextOr(d, "host_keychain_password", ""))
  }

  /** A file without entries is not a mapping. */
  function Load(text: string): Loaded {
    if !AllPrintable(text) then InvalidFile
    else
      match ReadEntries(text)
      case Got(entries, _) =>
        (match ToDict(entries)
         case Some(d) => if entries == [] then InvalidFile else Config(FromDict(d))
         case None => InvalidFile)
      case Rejected => InvalidFile
      case Unmodelled => NotModelled
  }

  /** What loading does to the worker token: one that was not issued is dropped. */
  function Classified(c: WorkerConfig): WorkerConfig {
    c.(workerToken := if Issued(c.workerToken) then c.workerToken else "")
  }

  /**
    Whatever mapping a file holds, the loaded worker token is empty or an issued one; and without an enrollment token
    of its own, a legacy shared token enrolls.
  */
  lemma LoadedTokenIsIssued(d: Dict)
    ensures var c := FromDict(d);
            && (c.workerToken == "" || Issued(c.workerToken)) && Classified(c) == c
            && (Issued(TextOr(d, "worker_token", "")) ==> c.workerToken == TextOr(d, "worker_token", ""))
            && ("enrollment_token" !in d && !Issued(TextOr(d, "worker_token", "")) ==>
                  c.workerToken == "" && c.enrollmentToken == TextOr(d, "worker_token", ""))
  {
  }

  // Keys.

  /** Length, first and fifth character tell the keys apart; each has an underscore. */
  function Mark(i: nat): (nat, char, char, nat)
    requires i < FIELDS
  {
    match i
    case 0 => (14, 's', 'e', 6)
    case 1 => (12, 'w', 'e', 6)
    case 2 => (16, 'e', 'l', 10)
    case 3 => (10, 'b', '_', 4)
    case 4 => (9, 'p', '_', 4)
    case 5 => (12, 's', 'u', 3)
    case 6 => (12, 's', 'p', 3)
    case 7 => (9, 'h', '_', 4)
    case 8 => (9, 'l', 'l', 3)
    case 9 => (9, 'u', 'h', 3)
    case 10 => (20, 't', 'c', 3)
    case _ => (22, 'h', '_', 4)
  }

  lemma KeyMark(i: nat)
    requires i < FIELDS
    ensures var key, mark := KeyName(i), Mark(i);
            |key| == mark.0 > 10 - 2 && key[0] == mark.1 && key[4] == mark.2 && mark.3 < |key| && key[mark.3] == '_'
  {
  }

  lemma KeysDiffer(i: nat, j: nat)
    requires i < FIELDS && j < FIELDS && i != j
    ensures KeyName(i) != KeyName(j)
  {
    KeyMark(i);
    KeyMark(j);
    MarksDiffer(i, j);
  }

  lemma MarksDiffer(i: nat, j: nat)
    requires i < FIELDS && j < FIELDS && i != j
    ensures (Mark(i).0, Mark(i).1, Mark(i).2) != (Mark(j).0, Mark(j).1, Mark(j).2)
  {
  }

  predicate LowerKey(s: string) {
    forall k :: 0 <= k < |s| ==> 'a' <= s[k] <= 'z' || s[k] == '_'
  }

  lemma EarlyKeyIsLower(i: nat)
    requires i < 4
    ensures LowerKey(KeyName(i))
  {
  }

  lemma MiddleKeyIsLower(i: nat)
    requires 4 <= i < 8
    ensures LowerKey(KeyName(i))
  {
  }

  lemma LateKeyIsLower(i: nat)
    requires 8 <= i < 10
    ensures LowerKey(KeyName(i))
  {
  }

  lemma LongKeyIsLower(i: nat)
    requires 10 <= i < FIELDS
    ensures LowerKey(KeyName(i))
  {
  }

  lemma UnderscoreIsNoWord(key: string)
    requires '_' in key
    ensures key !in TRUE_WORDS && key !in FALSE_WORDS && key !in NULL_WORDS
  {
    forall w | w in TRUE_WORDS + FALSE_WORDS + NULL_WORDS ensures w != key {
      assert '_' !in w;
    }
  }

  lemma KeyIsPlain(i: nat)
    requires i < FIELDS
    ensures PlainKey(KeyName(i))
  {
    KeyMark(i);
    assert KeyName(i)[Mark(i).3] == '_';
    UnderscoreIsNoWord(KeyName(i));
    if i < 4 {
      EarlyKeyIsLower(i);
    } else if i < 8 {
      MiddleKeyIsLower(i);
    } else if i < 10 {
      LateKeyIsLower(i);
    } else {
      LongKeyIsLower(i);
    }
  }

  // From entries to a configuration.

  ghost predicate DistinctKeys(entries: seq<Entry>) {
    forall i, j :: 0 <= i < j < |entries| ==> entries[i].key != entries[j].key
  }

  ghost predicate Stored(d: Dict, entries: seq<Entry>) {
    && (forall k :: 0 <= k < |entries| ==> entries[k].key in d && d[entries[k].key] == entries[k].value)
    && (forall key :: key in d ==> exists k :: 0 <= k < |entries| && entries[k].key == key)
  }

  lemma {:induction false} DistinctEntriesMap(entries: seq<Entry>)
    requires DistinctKeys(entries)
    ensures ToDict(entries).Some? && Stored(ToDict(entries).value, entries)
  {
    if entries != [] {
      var n := |entries| - 1;
      var init := entries[..n];
      DistinctEntriesMap(init);
      assert entries[n].key !in ToDict(init).value;
      OneMore(ToDict(init).value, entries);
    }
  }

  lemma OneMore(d: Dict, entries: seq<Entry>)
    requires entries != [] && DistinctKeys(entries) && Stored(d, entries[..|entries|-1])
    ensures var e := entries[|entries|-1]; Stored(d[e.key := e.value], entries)
  {
    var n := |entries| - 1;
    var d' := d[entries[n].key := entries[n].value];
    forall k | 0 <= k < |entries| ensures entries[k].key in d' && d'[entries[k].key] == entries[k].value {
      assert k < n ==> entries[..n][k] == entries[k];
    }
    forall key | key in d' ensures exists k :: 0 <= k < |entries| && entries[k].key == key {
      if key != entries[n].key {
        var k :| 0 <= k < n && entries[..n][k].key == key;
        assert entries[k].key == key;
      } else {
        assert entries[n].key == key;
      }
    }
  }

  /** The entries give the fields of `c`, apart from ones that are left out because they have their default. */
  ghost predicate Describes(entries: seq<Entry>, c: WorkerConfig) {
    && DistinctKeys(entries)
    && (forall k, i :: 0 <= k < |entries| && 0 <= i < FIELDS && entries[k].key == KeyName(i) ==> entries[k].value == FieldValue(c, i))
    && (forall i :: 0 <= i < FIELDS ==> Mentioned(entries, i) || MayLeaveOut(c, i))
  }

  /** A missing enrollment token is taken from a worker token that was not issued. */
  predicate MayLeaveOut(c: WorkerConfig, i: nat)
    requires i < FIELDS
  {
    FieldValue(c, i) == FieldValue(DEFAULTS, i) && (i == 2 ==> c.workerToken == "" || Issued(c.workerToken))
  }

  ghost predicate Mentioned(entries: seq<Entry>, i: nat)
    requires i < FIELDS
  {
    exists k :: 0 <= k < |entries| && entries[k].key == KeyName(i)
  }

  function FieldOr(d: Dict, i: nat): Value
    requires i < FIELDS
  {
    if KeyName(i) in d then d[KeyName(i)] else FieldValue(DEFAULTS, i)
  }

  lemma DescribedField(entries: seq<Entry>, d: Dict, c: WorkerConfig, i: nat)
    requires Describes(entries, c) && Stored(d, entries) && i < FIELDS
    ensures FieldOr(d, i) == FieldValue(c, i) && (KeyName(i) !in d ==> MayLeaveOut(c, i))
  {
    if KeyName(i) in d {
      var k :| 0 <= k < |entries| && entries[k].key == KeyName(i);
    } else {
      assert !Mentioned(entries, i);
    }
  }

  lemma FromFields(d: Dict, c: WorkerConfig)
    requires FieldOr(d, 0) == FieldValue(c, 0) && FieldOr(d, 1) == FieldValue(c, 1) && FieldOr(d, 2) == FieldValue(c, 2)
    requires FieldOr(d, 3) == FieldValue(c, 3) && FieldOr(d, 4) == FieldValue(c, 4) && FieldOr(d, 5) == FieldValue(c, 5)
    requires FieldOr(d, 6) == FieldValue(c, 6) && FieldOr(d, 7) == FieldValue(c, 7) && FieldOr(d, 8) == FieldValue(c, 8)
    requires FieldOr(d, 9) == FieldValue(c, 9) && FieldOr(d, 10) == FieldValue(c, 10) && FieldOr(d, 11) == FieldValue(c, 11)
    requires KeyName(2) !in d ==> c.workerToken == "" || Issued(c.workerToken)
    ensures FromDict(d) == Classified(c)
  {
  }

  lemma DescribedLoads(entries: seq<Entry>, c: WorkerConfig)
    requires Describes(entries, c)
    ensures ToDict(entries).Some? && FromDict(ToDict(entries).value) == Classified(c)
  {
    DistinctEntriesMap(entries);
    var d := ToDict(entries).value;
    DescribedField(entries, d, c, 0); DescribedField(entries, d, c, 1); DescribedField(entries, d, c, 2);
    DescribedField(entries, d, c, 3); DescribedField(entries, d, c, 4); DescribedField(entries, d, c, 5);
    DescribedField(entries, d, c, 6); DescribedField(entries, d, c, 7); DescribedField(entries, d, c, 8);
    DescribedField(entries, d, c, 9); DescribedField(entries, d, c, 10); DescribedField(entries, d, c, 11);
    FromFields(d, c);
  }

  /** A file of well-formed lines, whatever it says. */
  lemma LoadLines(lines: seq<Line>, end: string, c: WorkerConfig)
    requires AllWellFormed(lines) && (end == "" || end == "\n") && Describes(EntriesOf(lines), c) && EntriesOf(lines) != []
    ensures Load(PrintLines(lines, end)) ==
      if LinesPrintable(lines) && !AnyBroken(lines) then Config(Classified(c)) else InvalidFile
  {
    ReadLines(lines, end);
    FilePrintable(lines, end);
    DescribedLoads(EntriesOf(lines), c);
  }

  /** A text that single quotes keep: printable, unchanged by folding, and without a document marker on a line of its own. */
  predicate Steady(s: string) {
    AllPrintable(s) && Kept(s) && !HasMarker(s)
  }

  predicate SteadyLine(l: Line) {
    LinePrintable(l) && (l.Field? && l.entry.value.Text? && !l.doubled ==> Steady(l.entry.value.text))
  }

  /** The entries of a file, as written. */
  function WrittenEntries(lines: seq<Line>): seq<Entry> {
    if lines == [] then []
    else if lines[0].Note? then WrittenEntries(lines[1..])
    else [lines[0].entry] + WrittenEntries(lines[1..])
  }

  lemma {:induction false} SteadyEntries(lines: seq<Line>)
    requires forall k :: 0 <= k < |lines| ==> SteadyLine(lines[k])
    ensures EntriesOf(lines) == WrittenEntries(lines)
  {
    if lines != [] {
      SteadyEntries(lines[1..]);
      if lines[0].Field? && lines[0].entry.value.Text? {
        FoldKept(lines[0].entry.value.text);
      }
    }
  }

  /**
    Every file whose lines are comments, blank lines and entries in any order, quoted either way, with or without a
    line feed at its end, with keys of its own added or defaults left out, loads to the configuration it describes.
  */
  lemma FileLoads(lines: seq<Line>, end: string, c: WorkerConfig)
    requires AllWellFormed(lines) && (end == "" || end == "\n") && forall k :: 0 <= k < |lines| ==> SteadyLine(lines[k])
    requires WrittenEntries(lines) != [] && Describes(WrittenEntries(lines), c)
    ensures Load(PrintLines(lines, end)) == Config(Classified(c))
  {
    SteadyEntries(lines);
    LoadLines(lines, end, c);
    assert LinesPrintable(lines) && !AnyBroken(lines);
  }

  // What single quotes do to a configuration.

  function MapTexts(c: WorkerConfig, f: string -> string): WorkerConfig {
    WorkerConfig(f(c.serverAddress), f(c.workerToken), f(c.enrollmentToken), f(c.baseImage), c.poolSize, f(c.sshUsername),
                 f(c.sshPassword), c.httpPort, f(c.logLevel), c.useHTTPS, f(c.tlsCertFingerprint), f(c.hostKeychainPassword))
  }

  lemma MappedField(c: WorkerConfig, f: string -> string, i: nat)
    requires i < FIELDS
    ensures FieldValue(MapTexts(c, f), i) == if FieldValue(c, i).Text? then Text(f(FieldValue(c, i).text)) else FieldValue(c, i)
  {
  }

  function FoldConfig(c: WorkerConfig): WorkerConfig {
    MapTexts(c, Fold)
  }

  lemma FoldedField(c: WorkerConfig, i: nat)
    requires i < FIELDS
    ensures FieldValue(FoldConfig(c), i) == ReadBack(FieldValue(c, i), false)
  {
    MappedField(c, Fold, i);
  }

  ghost predicate SameFields(a: WorkerConfig, b: WorkerConfig) {
    forall i :: 0 <= i < FIELDS ==> FieldValue(a, i) == FieldValue(b, i)
  }

  lemma SameFieldsSame(a: WorkerConfig, b: WorkerConfig)
    requires SameFields(a, b)
    ensures a == b
  {
    assert FieldValue(a, 0) == FieldValue(b, 0) && FieldValue(a, 1) == FieldValue(b, 1) && FieldValue(a, 2) == FieldValue(b, 2);
    assert FieldValue(a, 3) == FieldValue(b, 3) && FieldValue(a, 4) == FieldValue(b, 4) && FieldValue(a, 5) == FieldValue(b, 5);
    assert FieldValue(a, 6) == FieldValue(b, 6) && FieldValue(a, 7) == FieldValue(b, 7) && FieldValue(a, 8) == FieldValue(b, 8);
    assert FieldValue(a, 9) == FieldValue(b, 9) && FieldValue(a, 10) == FieldValue(b, 10) && FieldValue(a, 11) == FieldValue(b, 11);
  }

  predicate KeptField(c: WorkerConfig, i: nat)
    requires i < FIELDS
  {
    FieldValue(c, i).Text? ==> Kept(FieldValue(c, i).text)
  }

  lemma FoldConfigKept(c: WorkerConfig)
    ensures FoldConfig(c) == c <==> forall i :: 0 <= i < FIELDS ==> KeptField(c, i)
  {
    forall i | 0 <= i < FIELDS ensures FieldValue(FoldConfig(c), i) == FieldValue(c, i) <==> KeptField(c, i) {
      FoldedField(c, i);
      if FieldValue(c, i).Text? {
        FoldKept(FieldValue(c, i).text);
      }
    }
    if forall i :: 0 <= i < FIELDS ==> KeptField(c, i) {
      assert SameFields(FoldConfig(c), c);
      SameFieldsSame(FoldConfig(c), c);
    }
  }

  // Files that give each field at most once, single-quoted.

  function FieldEntries(c: WorkerConfig, order: seq<nat>): seq<Entry>
    requires forall k :: 0 <= k < |order| ==> order[k] < FIELDS
  {
    seq(|order|, k requires 0 <= k < |order| => Entry(KeyName(order[k]), FieldValue(c, order[k])))
  }

  lemma FieldEntriesSplit(c: WorkerConfig, order: seq<nat>)
    requires order != [] && forall k :: 0 <= k < |order| ==> order[k] < FIELDS
    ensures FieldEntries(c, order) == [Entry(KeyName(order[0]), FieldValue(c, order[0]))] + FieldEntries(c, order[1..])
    ensures FieldLines(c, order)[1..] == FieldLines(c, order[1..])
  {
  }

  lemma {:induction false} WrittenFields(c: WorkerConfig, order: seq<nat>)
    requires forall k :: 0 <= k < |order| ==> order[k] < FIELDS
    ensures WrittenEntries(FieldLines(c, order)) == FieldEntries(c, order)
  {
    if order != [] {
      WrittenFields(c, order[1..]);
      FieldEntriesSplit(c, order);
    }
  }

  lemma {:induction false} EntriesOfFields(c: WorkerConfig, order: seq<nat>)
    requires forall k :: 0 <= k < |order| ==> order[k] < FIELDS
    ensures EntriesOf(FieldLines(c, order)) == FieldEntries(FoldConfig(c), order)
  {
    if order != [] {
      EntriesOfFields(c, order[1..]);
      FoldedField(c, order[0]);
      FieldEntriesSplit(c, order);
      FieldEntriesSplit(FoldConfig(c), order);
    }
  }

  ghost predicate OrderOf(order: seq<nat>, c: WorkerConfig) {
    && (forall k :: 0 <= k < |order| ==> order[k] < FIELDS)
    && (forall j, k :: 0 <= j < k < |order| ==> order[j] != order[k])
    && (forall i :: 0 <= i < FIELDS ==> i in order || MayLeaveOut(c, i))
  }

  lemma OrderDescribes(order: seq<nat>, c: WorkerConfig)
    requires OrderOf(order, c)
    ensures Describes(FieldEntries(c, order), c)
  {
    var entries := FieldEntries(c, order);
    forall j, k | 0 <= j < k < |entries| ensures entries[j].key != entries[k].key {
      KeysDiffer(order[j], order[k]);
    }
    forall k, i | 0 <= k < |entries| && 0 <= i < FIELDS && entries[k].key == KeyName(i) ensures entries[k].value == FieldValue(c, i) {
      if order[k] != i {
        KeysDiffer(order[k], i);
      }
    }
    forall i | 0 <= i < FIELDS && i in order ensures Mentioned(entries, i) {
      var k :| 0 <= k < |order| && order[k] == i;
      assert entries[k].key == KeyName(i);
    }
  }

  lemma FieldLinesWellFormed(c: WorkerConfig, order: seq<nat>)
    requires forall k :: 0 <= k < |order| ==> order[k] < FIELDS
    ensures AllWellFormed(FieldLines(c, order))
  {
    forall k | 0 <= k < |order| ensures WellFormed(FieldLines(c, order)[k]) {
      KeyIsPlain(order[k]);
    }
  }

  // Saving and loading.

  /** The text of a field can be read back at all. */
  predicate ReadableField(c: WorkerConfig, i: nat)
    requires i < FIELDS
  {
    FieldValue(c, i).Text? ==> AllPrintable(FieldValue(c, i).text) && !HasMarker(FieldValue(c, i).text)
  }

  ghost predicate Readable(c: WorkerConfig) {
    forall i :: 0 <= i < FIELDS ==> ReadableField(c, i)
  }

  ghost predicate SteadyConfig(c: WorkerConfig) {
    forall i :: 0 <= i < FIELDS ==> ReadableField(c, i) && KeptField(c, i)
  }

  lemma SavedLines(c: WorkerConfig)
    ensures var lines := FieldLines(c, SAVED_ORDER); LinesPrintable(lines) && !AnyBroken(lines) <==> Readable(c)
  {
    var lines := FieldLines(c, SAVED_ORDER);
    forall i | 0 <= i < FIELDS ensures LinePrintable(lines[i]) && !Broken(lines[i]) <==> ReadableField(c, i) {
      assert SAVED_ORDER[i] == i;
    }
  }

  lemma SavedOrder(c: WorkerConfig)
    ensures OrderOf(SAVED_ORDER, c)
  {
    forall i | 0 <= i < FIELDS ensures i in SAVED_ORDER {
      assert SAVED_ORDER[i] == i;
    }
    forall j, k | 0 <= j < k < |SAVED_ORDER| ensures SAVED_ORDER[j] != SAVED_ORDER[k] {
      assert SAVED_ORDER[j] == j && SAVED_ORDER[k] == k;
    }
  }

  /** What `save` writes, line by line. */
  function SavedFile(c: WorkerConfig): seq<Line> {
    [Field(Entry("server_address", Text(c.serverAddress)), false),
     Field(Entry("worker_token", Text(c.workerToken)), false),
     Field(Entry("enrollment_token", Text(c.enrollmentToken)), false),
     Field(Entry("base_image", Text(c.baseImage)), false),
     Field(Entry("pool_size", Number(c.poolSize)), false),
     Field(Entry("ssh_username", Text(c.sshUsername)), false),
     Field(Entry("ssh_password", Text(c.sshPassword)), false),
     Field(Entry("http_port", Number(c.httpPort)), false),
     Field(Entry("log_level", Text(c.logLevel)), false),
     Field(Entry("use_https", Flag(c.useHTTPS)), false),
     Field(Entry("tls_cert_fingerprint", Text(c.tlsCertFingerprint)), false),
     Field(Entry("host_keychain_password", Text(c.hostKeychainPassword)), false)]
  }

  lemma SavedLine(c: WorkerConfig, i: nat)
    requires i < FIELDS
    ensures FieldLines(c, SAVED_ORDER)[i] == SavedFile(c)[i]
  {
    assert SAVED_ORDER[i] == i;
  }

  lemma SavedText(c: WorkerConfig)
    ensures Save(c) == PrintLines(SavedFile(c), "")
  {
    forall i | 0 <= i < FIELDS ensures FieldLines(c, SAVED_ORDER)[i] == SavedFile(c)[i] {
      SavedLine(c, i);
    }
    assert FieldLines(c, SAVED_ORDER) == SavedFile(c);
  }

  /** What loading makes of any saved configuration. */
  lemma LoadSaved(c: WorkerConfig)
    ensures Load(Save(c)) == if Readable(c) then Config(Classified(FoldConfig(c))) else InvalidFile
  {
    var lines := FieldLines(c, SAVED_ORDER);
    FieldLinesWellFormed(c, SAVED_ORDER);
    EntriesOfFields(c, SAVED_ORDER);
    SavedOrder(FoldConfig(c));
    OrderDescribes(SAVED_ORDER, FoldConfig(c));
    SavedLines(c);
    LoadLines(lines, "", FoldConfig(c));
  }

  /**
    Loading a saved configuration gives it back exactly when its worker token is empty or an issued one and every text
    is printable, unchanged by folding and without a document marker.
  */
  lemma SaveLoadsBackIff(c: WorkerConfig)
    ensures Load(Save(c)) == Config(c) <==> SteadyConfig(c) && (c.workerToken == "" || Issued(c.workerToken))
  {
    LoadSaved(c);
    FoldConfigKept(c);
    if Classified(FoldConfig(c)) == c {
      assert FoldConfig(c).workerToken == c.workerToken;
      assert FoldConfig(c) == c;
    }
  }

  /** Saving what any file loaded to and loading again changes nothing, exactly when single quotes keep all its texts. */
  lemma SaveIsStableIff(d: Dict)
    ensures var c := FromDict(d); Load(Save(c)) == Config(c) <==> SteadyConfig(c)
  {
    LoadedTokenIsIssued(d);
    SaveLoadsBackIff(FromDict(d));
  }

  lemma OneLineIsSteady(s: string)
    requires OneLine(s) && AllPrintable(s)
    ensures Steady(s)
  {
    OneLineIsKept(s);
  }

  /** A password with a line break, written between double quotes. */
  const BROKEN_FILE := "ssh_password" + ": " + "\"a\\nb\""

  /** It fails for a value with a line break: the file below loads, and saving it turns the line break into a space. */
  lemma LineBreakIsLost()
    ensures var c := DEFAULTS.(sshPassword := "a\nb");
            && Load(BROKEN_FILE) == Config(c)
            && Load(Save(c)) == Config(c.(sshPassword := "a b"))
  {
    var c := DEFAULTS.(sshPassword := "a\nb");
    BrokenFileLoads(c);
    FoldBreak();
    DefaultsButPassword(c, "a\nb");
    FoldedPasswordLoads(c, "a b");
  }

  lemma FoldedPasswordLoads(c: WorkerConfig, folded: string)
    requires AsciiButPassword(c) && Fold(c.sshPassword) == folded && AllPrintable(c.sshPassword) && !HasMarker(c.sshPassword)
    requires c.workerToken == ""
    ensures Load(Save(c)) == Config(c.(sshPassword := folded))
  {
    LoadSaved(c);
    FoldPassword(c, folded);
  }

  lemma FoldBreak()
    ensures Fold("a\nb") == "a b" && !HasMarker("a\nb")
  {
    var s := "a\nb";
    assert s[1..] == "\nb" && WhiteLen("\nb") == 1 by {
      assert "\nb"[1..] == "b";
    }
    assert "\nb"[..1] == "\n" && "\nb"[1..] == "b";
    assert Breaks("\n") == "\n" by {
      assert "\n"[1..] == "";
    }
    assert Fold("b") == "b" by {
      assert "b"[1..] == "";
    }
    assert Fold("\nb") == " b";
  }

  predicate Ascii(s: string) {
    forall i :: 0 <= i < |s| ==> ' ' <= s[i] <= '~'
  }

  lemma AsciiFolds(s: string)
    requires Ascii(s)
    ensures Fold(s) == s && AllPrintable(s) && !HasMarker(s)
  {
    OneLineIsKept(s);
    FoldKept(s);
  }

  lemma DefaultsAreAscii()
    ensures Ascii("localhost:9090") && Ascii("minictl-tahoe-base") && Ascii("admin") && Ascii("info") && Ascii("")
  {
  }

  lemma DefaultField(i: nat)
    requires i < FIELDS
    ensures FieldValue(DEFAULTS, i).Text? ==> Ascii(FieldValue(DEFAULTS, i).text)
  {
    DefaultsAreAscii();
  }

  ghost predicate AsciiButPassword(c: WorkerConfig) {
    forall i :: 0 <= i < FIELDS && i != 6 ==> FieldValue(c, i).Text? ==> Ascii(FieldValue(c, i).text)
  }

  lemma FoldPassword(c: WorkerConfig, folded: string)
    requires AsciiButPassword(c) && Fold(c.sshPassword) == folded && AllPrintable(c.sshPassword) && !HasMarker(c.sshPassword)
    ensures Readable(c) && FoldConfig(c) == c.(sshPassword := folded)
  {
    var c' := c.(sshPassword := folded);
    forall i | 0 <= i < FIELDS ensures ReadableField(c, i) && FieldValue(FoldConfig(c), i) == FieldValue(c', i) {
      FoldedField(c, i);
      if i != 6 && FieldValue(c, i).Text? {
        AsciiFolds(FieldValue(c, i).text);
      }
      OnlyPassword(c, folded, i);
    }
    SameFieldsSame(FoldConfig(c), c');
  }

  lemma OnlyPassword(c: WorkerConfig, password: string, i: nat)
    requires i < FIELDS
    ensures FieldValue(c.(sshPassword := password), i) == if i == 6 then Text(password) else FieldValue(c, i)
    ensures FieldValue(c, 6) == Text(c.sshPassword)
  {
  }

  lemma DefaultsButPassword(c: WorkerConfig, password: string)
    requires c == DEFAULTS.(sshPassword := password)
    ensures AsciiButPassword(c)
  {
    forall i | 0 <= i < FIELDS && i != 6 ensures FieldValue(c, i).Text? ==> Ascii(FieldValue(c, i).text) {
      DefaultField(i);
      OnlyPassword(DEFAULTS, password, i);
    }
  }

  lemma OneEntryDescribes(c: WorkerConfig, j: nat)
    requires j < FIELDS && forall i :: 0 <= i < FIELDS && i != j ==> MayLeaveOut(c, i)
    ensures Describes([Entry(KeyName(j), FieldValue(c, j))], c)
  {
    var entries := [Entry(KeyName(j), FieldValue(c, j))];
    assert entries[0].key == KeyName(j) && Mentioned(entries, j);
    forall i | 0 <= i < FIELDS && i != j ensures KeyName(i) != KeyName(j) {
      KeysDiffer(i, j);
    }
  }

  lemma EscapedBreak()
    ensures EscapeDouble("a\nb") == "a\\nb" && AllPrintable("a\\nb")
  {
    assert "a\nb"[1..] == "\nb" && "\nb"[1..] == "b" && "b"[1..] == "";
  }

  lemma BrokenFileText(e: Entry)
    requires e == Entry(KeyName(6), Text("a\nb"))
    ensures PrintLine(Field(e, true)) == BROKEN_FILE && WritesPrintable(e.value, true)
  {
    EscapedBreak();
    assert QuoteDouble("a\nb") == "\"a\\nb\"";
  }

  lemma BrokenFileLoads(c: WorkerConfig)
    requires c == DEFAULTS.(sshPassword := "a\nb")
    ensures Load(BROKEN_FILE) == Config(c)
  {
    var entry := Entry(KeyName(6), FieldValue(c, 6));
    var lines := [Field(entry, true)];
    BrokenFileText(entry);
    assert PrintLines(lines, "") == BROKEN_FILE;
    KeyIsPlain(6);
    assert WrittenEntries(lines) == [entry] by {
      assert lines[1..] == [];
    }
    forall i | 0 <= i < FIELDS && i != 6 ensures MayLeaveOut(c, i) {
      OnlyPassword(DEFAULTS, "a\nb", i);
    }
    OneEntryDescribes(c, 6);
    FileLoads(lines, "", c);
  }

  // Keeping the token the server issued at registration.

  /** The configuration after registration, and whether it has to be saved. */
  function WithIssuedToken(c: WorkerConfig, issued: Option<string>): (WorkerConfig, bool) {
    if issued.None? || issued.value == "" then (c, false)
    else if c.workerToken == issued.value && c.enrollmentToken == "" then (c, false)
    else (c.(workerToken := issued.value, enrollmentToken := ""), true)
  }

  function PreferredAuthToken(c: WorkerConfig): string {
    if c.workerToken != "" then c.workerToken else c.enrollmentToken
  }

  /** The tokens the server makes. */
  predicate MadeByServer(token: string) {
    Issued(token) && forall i :: 4 <= i < |token| ==> IsDigit(token[i]) || 'a' <= token[i] <= 'f'
  }

  lemma ServerTokenIsSteady(token: string)
    requires MadeByServer(token)
    ensures OneLine(token) && AllPrintable(token) && Steady(token)
  {
    assert token[..4] == "wkt_";
    forall i | 0 <= i < |token| ensures !IsBreak(token[i]) && Printable(token[i]) {
      if i < 4 {
        assert token[i] == token[..4][i];
      }
    }
    OneLineIsSteady(token);
  }

  /**
    A worker that loaded any file and was issued a token uses that token and nothing else. If it has to save, the saved
    file loads to the same configuration exactly when single quotes keep the configuration's texts and the token has
    the issued form; and being issued the same token again changes nothing.
  */
  lemma IssuedTokenSurvivesRestart(d: Dict, issued: Option<string>)
    ensures var c := FromDict(d);
            var (c', save) := WithIssuedToken(c, issued);
            && (issued.Some? && issued.value != "" ==> PreferredAuthToken(c') == issued.value && c'.enrollmentToken == "")
            && (save ==> (Load(Save(c')) == Config(c') <==> SteadyConfig(c') && Issued(c'.workerToken)))
            && (!save ==> c' == c)
            && WithIssuedToken(c', issued) == (c', false)
  {
    var (c', save) := WithIssuedToken(FromDict(d), issued);
    if save {
      SaveLoadsBackIff(c');
    }
  }

  /** A file of one double-quoted line, with or without a line feed: its token is the one in use. */
  lemma DoubleQuotedTokenLoads(token: string, end: string)
    requires MadeByServer(token) && (end == "" || end == "\n")
    ensures Load("worker_token" + ": " + QuoteDouble(token) + end) == Config(DEFAULTS.(workerToken := token))
  {
    var c := DEFAULTS.(workerToken := token);
    var entry := Entry(KeyName(1), FieldValue(c, 1));
    var lines := [Field(entry, true)];
    assert WrittenEntries(lines) == [entry] by {
      assert lines[1..] == [];
    }
    KeyIsPlain(1);
    ServerTokenIsSteady(token);
    EscapeDoublePrintable(token);
    OneEntryDescribes(c, 1);
    FileLoads(lines, end, c);
  }

  /** The order in which the installer writes the fields; a keychain password only if it has one. */
  const INSTALLER_ORDER: seq<nat> := [0, 1, 2, 3, 4, 5, 6, 7, 9, 10, 8]

  function InstallerOrder(c: WorkerConfig): seq<nat> {
    if c.hostKeychainPassword == "" then INSTALLER_ORDER else INSTALLER_ORDER + [11]
  }

  function InstallerFile(c: WorkerConfig): string
    requires forall k :: 0 <= k < |InstallerOrder(c)| ==> InstallerOrder(c)[k] < FIELDS
  {
    PrintLines(FieldLines(c, InstallerOrder(c)), "\n")
  }

  lemma InstallerOrderOf(c: WorkerConfig)
    ensures OrderOf(InstallerOrder(c), c)
  {
    var order := InstallerOrder(c);
    assert order[0] == 0 && order[1] == 1 && order[2] == 2 && order[3] == 3 && order[4] == 4 && order[5] == 5;
    assert order[6] == 6 && order[7] == 7 && order[8] == 9 && order[9] == 10 && order[10] == 8;
    assert c.hostKeychainPassword != "" ==> order[11] == 11;
  }

  ghost predicate AllOneLine(c: WorkerConfig) {
    forall i :: 0 <= i < FIELDS ==> FieldValue(c, i).Text? ==> OneLine(FieldValue(c, i).text) && AllPrintable(FieldValue(c, i).text)
  }

  lemma OneLineConfigIsSteady(c: WorkerConfig)
    requires AllOneLine(c)
    ensures SteadyConfig(c)
  {
    forall i | 0 <= i < FIELDS ensures ReadableField(c, i) && KeptField(c, i) {
      if FieldValue(c, i).Text? {
        OneLineIsSteady(FieldValue(c, i).text);
      }
    }
  }

  /** The file the installer writes, of values of one line each, loads to those values. */
  lemma InstallerFileLoads(c: WorkerConfig)
    requires AllOneLine(c)
    ensures OrderOf(InstallerOrder(c), c) && Load(InstallerFile(c)) == Config(Classified(c))
    ensures c.workerToken == "" ==> Load(InstallerFile(c)) == Config(c) && PreferredAuthToken(c) == c.enrollmentToken
  {
    var order := InstallerOrder(c);
    InstallerOrderOf(c);
    OneLineConfigIsSteady(c);
    FieldLinesWellFormed(c, order);
    WrittenFields(c, order);
    OrderDescribes(order, c);
    forall k | 0 <= k < |order| ensures SteadyLine(FieldLines(c, order)[k]) {
      assert ReadableField(c, order[k]) && KeptField(c, order[k]);
    }
    FileLoads(FieldLines(c, order), "\n", c);
  }

  /**
    From installation to restart: the worker loads the installer's file, is issued a token, and whatever file it then
    has on disk loads to a configuration with the installed values that authenticates with that token.
  */
  lemma InstalledWorkerKeepsToken(c: WorkerConfig, token: string)
    requires AllOneLine(c) && MadeByServer(token)
    ensures OrderOf(InstallerOrder(c), c)
    ensures var (c', save) := WithIssuedToken(Classified(c), Some(token));
            && Load(if save then Save(c') else InstallerFile(c)) == Config(c')
            && c' == c.(workerToken := token, enrollmentToken := "") && PreferredAuthToken(c') == token
  {
    InstallerFileLoads(c);
    ServerTokenIsSteady(token);
    var (c', save) := WithIssuedToken(Classified(c), Some(token));
    if save {
      TokenKeepsOneLine(c, token);
      OneLineConfigIsSteady(c');
      SaveLoadsBackIff(c');
    }
  }

  lemma TokenKeepsOneLine(c: WorkerConfig, token: string)
    requires AllOneLine(c) && OneLine(token) && AllPrintable(token)
    ensures AllOneLine(c.(workerToken := token, enrollmentToken := ""))
  {
    var c' := c.(workerToken := token, enrollmentToken := "");
    forall i | 0 <= i < FIELDS ensures FieldValue(c', i).Text? ==> OneLine(FieldValue(c', i).text) && AllPrintable(FieldValue(c', i).text) {
      assert i != 1 && i != 2 ==> FieldValue(c', i) == FieldValue(c, i);
    }
  }
}
