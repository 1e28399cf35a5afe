/**
 Recovery records, the changes a journal update applies to one of them, the
 record-level file operations, and the JSON codec of the file.
 */
module Records {
  import opened Prelude
  import opened Sequences
  import opened Outpoints

  type Token = string

  datatype RecoveryRecord = RecoveryRecord(
    id: string,
    operation: string,
    identity: map<string, Json>,
    phase: string,
    action: Option<string>,
    status: string,
    lockedOutpoints: seq<Outpoint>,
    ownerTokens: map<string, Token>,
    psbt: Option<string>,
    txid: Option<string>)

  function NewRecord(id: string, operation: string, identity: map<string, Json>): RecoveryRecord {
    RecoveryRecord(id, operation, identity, "prestart", None, "pending", [], map[], None, None)
  }

  /** The keyword arguments of an update: a field is `Some` when it is passed. */
  datatype Changes = Changes(
    phase: Option<string>,
    action: Option<Option<string>>,
    status: Option<string>,
    lockedOutpoints: Option<seq<Outpoint>>,
    ownerTokens: Option<map<string, Token>>,
    psbt: Option<Option<string>>,
    txid: Option<Option<string>>)

  function Pick<T>(change: Option<T>, current: T): T {
    match change case None => current case Some(v) => v
  }

  /** A keyword that is passed on only when it carries a value. */
  function PassIfSome(value: Option<string>): Option<Option<string>> {
    if value.Some? then Some(value) else None
  }

  function Apply(r: RecoveryRecord, ch: Changes): RecoveryRecord {
    r.(phase := Pick(ch.phase, r.phase),
       action := Pick(ch.action, r.action),
       status := Pick(ch.status, r.status),
       lockedOutpoints := Pick(ch.lockedOutpoints, r.lockedOutpoints),
       ownerTokens := Pick(ch.ownerTokens, r.ownerTokens),
       psbt := Pick(ch.psbt, r.psbt),
       txid := Pick(ch.txid, r.txid))
  }

  /** Owner tokens as filed: keyed by the printed outpoint. */
  function Encode(owners: map<Outpoint, Token>): (m: map<string, Token>)
    ensures forall o :: o in owners ==> Print(o) in m && m[Print(o)] == owners[o]
    ensures forall k :: k in m ==> exists o :: o in owners && Print(o) == k && m[k] == owners[o]
  {
    PrintIsInjective();
    map o | o in owners :: Print(o) := owners[o]
  }

  /** What `before_mutation` passes to `update`; a missing psbt or txid is not passed on. */
  function BeforeChanges(action: string, phase: string, outs: seq<Outpoint>,
                         owners: map<Outpoint, Token>, psbt: Option<string>, txid: Option<string>): Changes {
    Changes(Some(phase), Some(Some(action)), Some("pending"), Some(outs), Some(Encode(owners)),
            PassIfSome(psbt), PassIfSome(txid))
  }

  /** What `after_mutation` passes to `update`. */
  function AfterChanges(phase: string, txid: Option<string>): Changes {
    Changes(Some(phase), Some(None), Some("pending"), None, None, None, PassIfSome(txid))
  }

  // ---- the file as a list of records ----

  predicate HasId(file: seq<RecoveryRecord>, id: string) {
    exists i :: 0 <= i < |file| && file[i].id == id
  }

  /** The first record with the id; `update` changes exactly that one. */
  function IndexOf(file: seq<RecoveryRecord>, id: string): (i: nat)
    requires HasId(file, id)
    ensures i < |file| && file[i].id == id
    ensures forall j :: 0 <= j < i ==> file[j].id != id
  {
    if file[0].id == id then 0 else 1 + IndexOf(file[1..], id)
  }

  function Lookup(file: seq<RecoveryRecord>, id: string): RecoveryRecord
    requires HasId(file, id)
  {
    file[IndexOf(file, id)]
  }

  function Updated(file: seq<RecoveryRecord>, id: string, ch: Changes): (f: seq<RecoveryRecord>)
    ensures |f| == |file|
    ensures forall i :: 0 <= i < |file| ==> f[i].id == file[i].id
    ensures forall i :: 0 <= i < |file| && file[i].id != id ==> f[i] == file[i]
  {
    if !HasId(file, id) then file
    else var i := IndexOf(file, id); file[i := Apply(file[i], ch)]
  }

  /** `resolve` keeps every record with another id, in order. */
  function Without(file: seq<RecoveryRecord>, id: string): (f: seq<RecoveryRecord>)
    ensures forall r :: r in f <==> r in file && r.id != id
  {
    if file == [] then []
    else if file[0].id == id then Without(file[1..], id)
    else [file[0]] + Without(file[1..], id)
  }

  predicate UniqueIds(file: seq<RecoveryRecord>) {
    forall i, j :: 0 <= i < j < |file| ==> file[i].id != file[j].id
  }

  lemma LookupOfUpdated(file: seq<RecoveryRecord>, id: string, ch: Changes)
    requires HasId(file, id)
    ensures HasId(Updated(file, id, ch), id)
    ensures Lookup(Updated(file, id, ch), id) == Apply(Lookup(file, id), ch)
  {
    var f := Updated(file, id, ch);
    var i := IndexOf(file, id);
    assert f[i].id == id;
    assert IndexOf(f, id) == i;
  }

  lemma LookupOther(file: seq<RecoveryRecord>, id: string, ch: Changes, other: string)
    requires HasId(file, other) && other != id
    ensures HasId(Updated(file, id, ch), other)
    ensures Lookup(Updated(file, id, ch), other) == Lookup(file, other)
  {
    var f := Updated(file, id, ch);
    var i := IndexOf(file, other);
    assert f[i].id == other;
    assert IndexOf(f, other) == i;
  }

  lemma {:induction false} WithoutKeepsUnique(file: seq<RecoveryRecord>, id: string)
    requires UniqueIds(file)
    ensures UniqueIds(Without(file, id)) && !HasId(Without(file, id), id)
  {
    var f := Without(file, id);
    forall i | 0 <= i < |f| ensures f[i].id != id {
      assert f[i] in f;
    }
    if file != [] {
      WithoutKeepsUnique(file[1..], id);
      if file[0].id != id {
        var g := Without(file[1..], id);
        forall j | 0 <= j < |g| ensures g[j].id != file[0].id {
          assert g[j] in g;
          assert g[j] in file[1..];
        }
      }
    }
  }

  /**
   A transaction id or PSBT once recorded survives any series of before/after
   mutations: it is only ever replaced by another one, never cleared.
   */
  ghost predicate FromMutation(ch: Changes) {
    (exists action, phase, outs, owners, psbt, txid ::
       ch == BeforeChanges(action, phase, outs, owners, psbt, txid))
    || (exists phase, txid :: ch == AfterChanges(phase, txid))
  }

  function ApplyAll(r: RecoveryRecord, chs: seq<Changes>): RecoveryRecord {
    if chs == [] then r else Apply(ApplyAll(r, chs[..|chs| - 1]), chs[|chs| - 1])
  }

  /** The last transaction id passed by any of the changes, or the one already there. */
  function LastTxid(chs: seq<Changes>, current: Option<string>): Option<string> {
    if chs == [] then current
    else if chs[|chs| - 1].txid.Some? && chs[|chs| - 1].txid.value.Some? then chs[|chs| - 1].txid.value
    else LastTxid(chs[..|chs| - 1], current)
  }

  function LastPsbt(chs: seq<Changes>, current: Option<string>): Option<string> {
    if chs == [] then current
    else if chs[|chs| - 1].psbt.Some? && chs[|chs| - 1].psbt.value.Some? then chs[|chs| - 1].psbt.value
    else LastPsbt(chs[..|chs| - 1], current)
  }

  lemma {:induction false} IdentityIsNeverCleared(r: RecoveryRecord, chs: seq<Changes>)
    requires forall i :: 0 <= i < |chs| ==> FromMutation(chs[i])
    ensures ApplyAll(r, chs).txid == LastTxid(chs, r.txid)
    ensures ApplyAll(r, chs).psbt == LastPsbt(chs, r.psbt)
    ensures r.txid.Some? ==> ApplyAll(r, chs).txid.Some?
    ensures r.psbt.Some? ==> ApplyAll(r, chs).psbt.Some?
    ensures ApplyAll(r, chs).id == r.id && ApplyAll(r, chs).operation == r.operation
    ensures ApplyAll(r, chs).identity == r.identity
    ensures chs != [] ==> ApplyAll(r, chs).status == "pending"
  {
    if chs != [] {
      IdentityIsNeverCleared(r, chs[..|chs| - 1]);
      assert FromMutation(chs[|chs| - 1]);
    }
  }

  // ---- the JSON codec of the file ----

  datatype Json =
    | JNull
    | JBool(b: bool)
    | JInt(i: int)
    | JText(text: string)
    | JList(items: seq<Json>)
    | JObject(fields: map<string, Json>)

  function OptionalText(t: Option<string>): Json {
    match t case None => JNull case Some(s) => JText(s)
  }

  function TextMap(m: map<string, string>): Json {
    JObject(map k | k in m :: JText(m[k]))
  }

  /** The field names of a record in the file. */
  datatype Field = FId | FOperation | FIdentity | FPhase | FAction | FStatus
                 | FLockedOutpoints | FOwnerTokens | FPsbt | FTxid

  type Dict = map<Field, Json>

  function DumpOutpoint(o: Outpoint): Json {
    JList([JText(o.txid), JInt(o.vout)])
  }

  function ToDict(r: RecoveryRecord): Dict {
    map[
      FId := JText(r.id),
      FOperation := JText(r.operation),
      FIdentity := JObject(r.identity),
      FPhase := JText(r.phase),
      FAction := OptionalText(r.action),
      FStatus := JText(r.status),
      FLockedOutpoints := JList(seq(|r.lockedOutpoints|, i requires 0 <= i < |r.lockedOutpoints| =>
                                      DumpOutpoint(r.lockedOutpoints[i]))),
      FOwnerTokens := TextMap(r.ownerTokens),
      FPsbt := OptionalText(r.psbt),
      FTxid := OptionalText(r.txid)
    ]
  }

  function Get(d: Dict, key: Field, default: Json): Json {
    if key in d then d[key] else default
  }

  /** One `locked_outpoints` entry: a two-element list of a text and an integer that is no boolean. */
  function ReadOutpoint(j: Json): Option<Outpoint> {
    match j
    case JList(parts) =>
      if |parts| == 2 && parts[0].JText? && parts[1].JInt? then MakeOutpoint(parts[0].text, parts[1].i) else None
    case _ => None
  }

  function ReadOutpoints(items: seq<Json>): Option<seq<Outpoint>> {
    if items == [] then Some([])
    else match (ReadOutpoint(items[0]), ReadOutpoints(items[1..]))
         case (Some(o), Some(rest)) => Some([o] + rest)
         case _ => None
  }

  function ReadOptionalText(j: Json): Option<Option<string>> {
    match j
    case JNull => Some(None)
    case JText(s) => Some(Some(s))
    case _ => None
  }

  /** `None` stands for any of the errors that make the journal invalid. */
  function FromDict(d: Dict, str: Json -> string): Option<RecoveryRecord> {
    var outs := Get(d, FLockedOutpoints, JList([]));
    var action := ReadOptionalText(Get(d, FAction, JNull));
    var psbt := ReadOptionalText(Get(d, FPsbt, JNull));
    var txid := ReadOptionalText(Get(d, FTxid, JNull));
    var identity := Get(d, FIdentity, JObject(map[]));
    if !outs.JList? || !identity.JObject? || action.None? || psbt.None? || txid.None?
       || FId !in d || FOperation !in d then None
    else match (ReadOutpoints(outs.items), ReadTokens(Get(d, FOwnerTokens, JObject(map[])), str))
         case (Some(outpoints), Some(tokens)) =>
           Some(RecoveryRecord(
                  str(d[FId]), str(d[FOperation]), identity.fields,
                  str(Get(d, FPhase, JText("unknown"))), action.value, str(Get(d, FStatus, JText("pending"))),
                  outpoints, tokens, psbt.value, txid.value))
         case _ => None
  }

  function ReadTokens(j: Json, str: Json -> string): Option<map<string, Token>> {
    if j.JObject? then Some(map k | k in j.fields :: str(j.fields[k])) else None
  }

  lemma {:induction false} OutpointsRoundTrip(outs: seq<Outpoint>, items: seq<Json>)
    requires |items| == |outs|
    requires forall i :: 0 <= i < |outs| ==> items[i] == DumpOutpoint(outs[i])
    ensures ReadOutpoints(items) == Some(outs)
  {
    if outs != [] {
      OutpointsRoundTrip(outs[1..], items[1..]);
      assert ReadOutpoint(items[0]) == Some(outs[0]);
      assert [outs[0]] + outs[1..] == outs;
    }
  }

  /** The fields a record's dictionary must hold for the record to be read back. */
  ghost predicate Describes(d: Dict, r: RecoveryRecord) {
    && FId in d && FOperation in d && FIdentity in d && FPhase in d && FAction in d
    && FStatus in d && FLockedOutpoints in d && FOwnerTokens in d && FPsbt in d && FTxid in d
    && d[FId] == JText(r.id) && d[FOperation] == JText(r.operation)
    && d[FIdentity] == JObject(r.identity)
    && d[FPhase] == JText(r.phase) && d[FStatus] == JText(r.status)
    && d[FAction] == OptionalText(r.action)
    && d[FPsbt] == OptionalText(r.psbt) && d[FTxid] == OptionalText(r.txid)
    && d[FOwnerTokens] == TextMap(r.ownerTokens)
    && d[FLockedOutpoints].JList?
    && |d[FLockedOutpoints].items| == |r.lockedOutpoints|
    && (forall i :: 0 <= i < |r.lockedOutpoints| ==>
          d[FLockedOutpoints].items[i] == DumpOutpoint(r.lockedOutpoints[i]))
  }

  lemma ToDictDescribes(r: RecoveryRecord)
    ensures Describes(ToDict(r), r)
  {
    assert |ToDict(r)[FLockedOutpoints].items| == |r.lockedOutpoints|;
  }

  lemma TokensRoundTrip(tokens: map<string, Token>, str: Json -> string)
    requires forall s :: str(JText(s)) == s
    ensures ReadTokens(TextMap(tokens), str) == Some(tokens)
  {
    var fields := TextMap(tokens).fields;
    assert (map k | k in fields :: str(fields[k])) == tokens;
  }

  lemma OptionalTextReads(o: Option<string>)
    ensures ReadOptionalText(OptionalText(o)) == Some(o)
  {
  }

  lemma DescribedIsRead(d: Dict, r: RecoveryRecord, str: Json -> string)
    requires Describes(d, r)
    requires forall s :: str(JText(s)) == s
    ensures FromDict(d, str) == Some(r)
  {
    OptionalTextReads(r.action);
    OptionalTextReads(r.psbt);
    OptionalTextReads(r.txid);
    OutpointsRoundTrip(r.lockedOutpoints, d[FLockedOutpoints].items);
    TokensRoundTrip(r.ownerTokens, str);
    assert str(d[FId]) == r.id && str(d[FOperation]) == r.operation;
    assert str(d[FPhase]) == r.phase && str(d[FStatus]) == r.status;
  }

  /** A restart reads back exactly the records the last run wrote. */
  lemma CodecRoundTrip(r: RecoveryRecord, str: Json -> string)
    requires forall s :: str(JText(s)) == s
    ensures FromDict(ToDict(r), str) == Some(r)
  {
    ToDictDescribes(r);
    DescribedIsRead(ToDict(r), r, str);
  }

  /** `_load`: one record that does not decode makes the whole file unreadable, never a shorter one. */
  function LoadAll(items: seq<Dict>, str: Json -> string): (r: Option<seq<RecoveryRecord>>)
    ensures r.Some? <==> forall i :: 0 <= i < |items| ==> FromDict(items[i], str).Some?
  {
    if items == [] then Some([])
    else match (FromDict(items[0], str), LoadAll(items[1..], str))
         case (Some(h), Some(t)) => Some([h] + t)
         case _ => None
  }

  lemma LoadStep(items: seq<Dict>, str: Json -> string, h: RecoveryRecord, t: seq<RecoveryRecord>)
    requires items != [] && FromDict(items[0], str) == Some(h) && LoadAll(items[1..], str) == Some(t)
    ensures LoadAll(items, str) == Some([h] + t)
  {
  }

  /** Whatever `_write` puts into the file, `_load` reads back, record by record. */
  lemma {:induction false} FileRoundTrip(file: seq<RecoveryRecord>, items: seq<Dict>, str: Json -> string)
    requires forall s :: str(JText(s)) == s
    requires |items| == |file| && forall i :: 0 <= i < |file| ==> items[i] == ToDict(file[i])
    ensures LoadAll(items, str) == Some(file)
  {
    if file != [] {
      CodecRoundTrip(file[0], str);
      FileRoundTrip(file[1..], items[1..], str);
      HeadAndTail(file);
      LoadStep(items, str, file[0], file[1..]);
    }
  }
}
