/** A hash-chained text editor and the verifier that replays its snapshots.  The digest is an
    arbitrary function: where collision resistance is needed, the statement says "or here are
    two different envelopes with one digest". */
module PublicationEditor {
  import opened Wrappers

  const MAX_OPERATIONS := 64
  const MAX_BLOCKS := 16
  const MAX_BLOCK_CHARACTERS := 8192
  const MAX_JSON := 4 * 1024 * 1024
  const GENESIS: Digest := seq(64, _ => '0')

  type Digest = string

  datatype Activity = Import | ManualEdit | Generation | SubstantiveEditing | Proofreading | Translation

  predicate IsAi(a: Activity) { a != Import && a != ManualEdit }

  datatype Block = Block(id: string, text: string)
  datatype Document = Document(id: string, blocks: seq<Block>)
  datatype Operation = Operation(documentId: string, sequence: int, previous: Digest, before: Digest, after: Digest,
                                 blockId: string, text: string, activity: Activity, observedAt: int)
  datatype Checkpoint = Checkpoint(documentId: string, sequence: int, chainHead: Digest, document: Document,
                                   observedAt: int)
  datatype Message = Written(operation: Operation) | Closed(checkpoint: Checkpoint)
  datatype Envelope<+B> = Envelope(keyId: string, body: B, signature: string)
  datatype SignedSnapshot = SignedSnapshot(documentId: string, operations: seq<Envelope<Operation>>,
                                           checkpoint: Envelope<Checkpoint>)

  /** Digests, the signature scheme of the collector's key pair and canonical JSON lengths. */
  datatype Crypto = Crypto(
    envelopeDigest: Envelope<Operation> -> Digest, documentDigest: Document -> Digest,
    snapshotDigest: SignedSnapshot -> Digest, textDigest: string -> Digest,
    sign: (string, Message) -> string, verifies: (string, Message, string) -> bool,
    draftSize: (seq<Envelope<Operation>>, Document) -> nat, snapshotSize: SignedSnapshot -> nat)

  predicate IsHex(s: string, size: nat) {
    |s| == size && forall i :: 0 <= i < |s| ==> '0' <= s[i] <= '9' || 'a' <= s[i] <= 'f'
  }

  /** Digests are 64 hexadecimal digits. */
  ghost predicate Hexadecimal(c: Crypto) {
    && (forall e: Envelope<Operation> :: IsHex(c.envelopeDigest(e), 64))
    && (forall d: Document :: IsHex(c.documentDigest(d), 64))
    && (forall s: SignedSnapshot :: IsHex(c.snapshotDigest(s), 64))
    && (forall t: string :: IsHex(c.textDigest(t), 64))
  }

  /** What the collector's secret signs, its public key verifies. */
  ghost predicate Signs(c: Crypto) {
    && (forall k: string, m: Message :: c.verifies(k, m, c.sign(k, m)) && IsHex(c.sign(k, m), 128))
    && Hexadecimal(c)
  }

  // ----- shapes

  predicate Alphanumeric(c: char) { 'A' <= c <= 'Z' || 'a' <= c <= 'z' || '0' <= c <= '9' }

  predicate IsIdentifier(s: string) {
    1 <= |s| <= 64 && Alphanumeric(s[0]) && forall i :: 0 < i < |s| ==> Alphanumeric(s[i]) || s[i] == '_' || s[i] == '-'
  }

  predicate IsText(s: string) {
    |s| <= MAX_BLOCK_CHARACTERS && forall i :: 0 <= i < |s| ==>
        (s[i] as int >= 32 || s[i] in "\r\n\t") && s[i] as int != 127
  }

  predicate Distinct(blocks: seq<Block>) {
    forall i, j :: 0 <= i < j < |blocks| ==> blocks[i].id != blocks[j].id
  }

  predicate DocumentShape(d: Document) {
    && IsIdentifier(d.id) && 1 <= |d.blocks| <= MAX_BLOCKS && Distinct(d.blocks)
    && forall i :: 0 <= i < |d.blocks| ==> IsIdentifier(d.blocks[i].id) && IsText(d.blocks[i].text)
  }

  predicate OperationShape(op: Operation) {
    && IsIdentifier(op.documentId) && IsIdentifier(op.blockId) && 1 <= op.sequence <= MAX_OPERATIONS && IsText(op.text)
    && IsHex(op.previous, 64) && IsHex(op.before, 64) && IsHex(op.after, 64)
  }

  predicate CheckpointShape(cp: Checkpoint) {
    && IsIdentifier(cp.documentId) && 1 <= cp.sequence <= MAX_OPERATIONS && IsHex(cp.chainHead, 64)
    && DocumentShape(cp.document)
  }

  /** An envelope of the collector's: its key, and a well-shaped signature that verifies. */
  predicate Authentic<B>(c: Crypto, keyId: string, e: Envelope<B>, m: Message) {
    e.keyId == keyId && IsHex(e.signature, 128) && c.verifies(keyId, m, e.signature)
  }

  // ----- replay

  predicate Has(blocks: seq<Block>, id: string) { exists i :: 0 <= i < |blocks| && blocks[i].id == id }

  /** Assignment to an insertion-ordered dictionary: in place for a known key, else at the end. */
  function Put(blocks: seq<Block>, id: string, text: string): seq<Block> {
    if Has(blocks, id)
    then seq(|blocks|, i requires 0 <= i < |blocks| => if blocks[i].id == id then Block(id, text) else blocks[i])
    else blocks + [Block(id, text)]
  }

  function Replayed(operations: seq<Envelope<Operation>>): seq<Block> {
    if operations == [] then []
    else var op := operations[|operations| - 1].body; Put(Replayed(operations[..|operations| - 1]), op.blockId, op.text)
  }

  function LastWriter(operations: seq<Envelope<Operation>>, id: string): Option<Operation> {
    if operations == [] then None
    else if operations[|operations| - 1].body.blockId == id then Some(operations[|operations| - 1].body)
    else LastWriter(operations[..|operations| - 1], id)
  }

  /** The position of the first operation on this block; the length if there is none. */
  function FirstWrite(operations: seq<Envelope<Operation>>, id: string): nat {
    if operations == [] then 0
    else if operations[0].body.blockId == id then 0
    else 1 + FirstWrite(operations[1..], id)
  }

  function ActivitiesOf(operations: seq<Envelope<Operation>>): set<Activity> {
    set i | 0 <= i < |operations| && IsAi(operations[i].body.activity) :: operations[i].body.activity
  }

  function Head(c: Crypto, operations: seq<Envelope<Operation>>): Digest {
    if operations == [] then GENESIS else c.envelopeDigest(operations[|operations| - 1])
  }

  predicate ChainLink(c: Crypto, keyId: string, documentId: string, past: seq<Envelope<Operation>>,
                      e: Envelope<Operation>) {
    var op := e.body;
    var blocks := Replayed(past);
    && OperationShape(op) && Authentic(c, keyId, e, Written(op))
    && op.documentId == documentId && op.sequence == |past| + 1
    && op.previous == Head(c, past) && op.before == c.documentDigest(Document(documentId, blocks))
    && (past != [] ==> past[|past| - 1].body.observedAt <= op.observedAt)
    && (Has(blocks, op.blockId) || |blocks| < MAX_BLOCKS)
    && op.after == c.documentDigest(Document(documentId, Put(blocks, op.blockId, op.text)))
  }

  predicate Chain(c: Crypto, keyId: string, documentId: string, operations: seq<Envelope<Operation>>) {
    forall i {:trigger ChainLink(c, keyId, documentId, operations[..i], operations[i])} ::
      0 <= i < |operations| ==> ChainLink(c, keyId, documentId, operations[..i], operations[i])
  }

  /** The declarative reading of the whole verifier. */
  predicate Accepted(c: Crypto, keyId: string, s: SignedSnapshot) {
    && IsIdentifier(s.documentId) && 1 <= |s.operations| <= MAX_OPERATIONS && c.snapshotSize(s) <= MAX_JSON
    && Chain(c, keyId, s.documentId, s.operations)
    && var cp := s.checkpoint.body;
       && CheckpointShape(cp) && Authentic(c, keyId, s.checkpoint, Closed(cp))
       && cp.documentId == s.documentId && cp.sequence == |s.operations| && cp.chainHead == Head(c, s.operations)
       && cp.document == Document(s.documentId, Replayed(s.operations))
       && s.operations[|s.operations| - 1].body.observedAt <= cp.observedAt
  }

  // ----- the verified view

  datatype Adoption = Adoption(blockId: string, revision: string, digest: Digest, activity: Activity, observedAt: int)
  datatype View = View(documentId: string, revision: string, blocks: seq<Block>, observedActivities: seq<Activity>,
                       adopted: seq<Adoption>, source: Digest, lineage: Digest, observedAt: int)

  function Digit(d: int): (c: char)
    requires 0 <= d < 10
    ensures '0' <= c <= '9'
  {
    (48 + d) as char
  }

  function Decimal(n: int): string
    decreases if n < 0 then 1 - n else n
  {
    if n < 0 then "-" + Decimal(-n)
    else if n < 10 then [Digit(n)]
    else Decimal(n / 10) + [Digit(n % 10)]
  }

  /** A readable revision label; the full digests carry the integrity binding. */
  function RevisionOf(sequence: int, digest: Digest): string {
    "rev-" + Decimal(sequence) + "-" + if |digest| <= 24 then digest else digest[..24]
  }

  function AdoptionOf(c: Crypto, b: Block, op: Operation): Adoption {
    var digest := c.textDigest(b.text);
    Adoption(b.id, RevisionOf(op.sequence, digest), digest, op.activity, op.observedAt)
  }

  const ALPHABETICAL := [Generation, Proofreading, SubstantiveEditing, Translation]

  /** The AI activities of a set in alphabetical order. */
  function Sorted(activities: set<Activity>): seq<Activity> { Select(ALPHABETICAL, activities) }

  function Select(from: seq<Activity>, activities: set<Activity>): seq<Activity> {
    if from == [] then []
    else (if from[0] in activities then [from[0]] else []) + Select(from[1..], activities)
  }

  /** The blocks whose last writer was an AI activity. */
  function Adoptions(c: Crypto, operations: seq<Envelope<Operation>>, blocks: seq<Block>): seq<Adoption> {
    if blocks == [] then []
    else
      var b := blocks[|blocks| - 1];
      var last := LastWriter(operations, b.id);
      Adoptions(c, operations, blocks[..|blocks| - 1]) +
      if last.Some? && IsAi(last.value.activity) then [AdoptionOf(c, b, last.value)] else []
  }

  function ViewOf(c: Crypto, s: SignedSnapshot): View {
    var blocks := Replayed(s.operations);
    var source := c.documentDigest(Document(s.documentId, blocks));
    View(s.documentId, RevisionOf(|s.operations|, source), blocks, Sorted(ActivitiesOf(s.operations)),
         Adoptions(c, s.operations, blocks), source, c.snapshotDigest(s), s.checkpoint.body.observedAt)
  }

  // ----- facts about replay

  lemma PutFacts(blocks: seq<Block>, id: string, text: string)
    requires Distinct(blocks)
    ensures var after := Put(blocks, id, text);
            && Distinct(after) && (forall k :: Has(after, k) <==> Has(blocks, k) || k == id)
            && (forall i :: 0 <= i < |after| ==>
                  after[i] == Block(id, text) || (i < |blocks| && after[i] == blocks[i] && after[i].id != id))
  {
    var after := Put(blocks, id, text);
    forall k ensures Has(after, k) <==> Has(blocks, k) || k == id {
      if Has(blocks, k) {
        var i :| 0 <= i < |blocks| && blocks[i].id == k;
        assert after[i].id == k;
      }
      if !Has(blocks, id) { assert after[|blocks|].id == id; }
    }
  }

  lemma {:induction false} FirstWriteOfLonger(operations: seq<Envelope<Operation>>, e: Envelope<Operation>, id: string)
    ensures FirstWrite(operations, id) <= |operations|
    ensures FirstWrite(operations + [e], id) ==
            (if FirstWrite(operations, id) < |operations| || e.body.blockId == id then FirstWrite(operations, id)
             else |operations| + 1)
  {
    if operations != [] {
      FirstWriteOfLonger(operations[1..], e, id);
      assert (operations + [e])[1..] == operations[1..] + [e];
    }
  }

  predicate WrittenLast(operations: seq<Envelope<Operation>>, b: Block) {
    var last := LastWriter(operations, b.id);
    last.Some? && last.value.text == b.text && last.value.blockId == b.id
  }

  lemma {:induction false} ReplayContents(operations: seq<Envelope<Operation>>)
    ensures var blocks := Replayed(operations);
            && Distinct(blocks)
            && (forall id :: Has(blocks, id) <==> LastWriter(operations, id).Some?)
            && (forall i :: 0 <= i < |blocks| ==> WrittenLast(operations, blocks[i]))
  {
    if operations != [] {
      var op := operations[|operations| - 1].body;
      ReplayContents(operations[..|operations| - 1]);
      PutFacts(Replayed(operations[..|operations| - 1]), op.blockId, op.text);
    }
  }

  ghost predicate InOrderOfFirstWrites(operations: seq<Envelope<Operation>>, blocks: seq<Block>) {
    && (forall id :: Has(blocks, id) <==> FirstWrite(operations, id) < |operations|)
    && (forall i, j :: 0 <= i < j < |blocks| ==>
          FirstWrite(operations, blocks[i].id) < FirstWrite(operations, blocks[j].id))
  }

  lemma PutKeepsOrder(past: seq<Envelope<Operation>>, e: Envelope<Operation>, blocks: seq<Block>)
    requires Distinct(blocks) && InOrderOfFirstWrites(past, blocks)
    ensures InOrderOfFirstWrites(past + [e], Put(blocks, e.body.blockId, e.body.text))
  {
    var after := Put(blocks, e.body.blockId, e.body.text);
    PutFacts(blocks, e.body.blockId, e.body.text);
    forall id ensures FirstWrite(past + [e], id) == (if FirstWrite(past, id) < |past| || e.body.blockId == id
                                                     then FirstWrite(past, id) else |past| + 1) <= |past| + 1 {
      FirstWriteOfLonger(past, e, id);
    }
    forall id ensures FirstWrite(past, id) <= |past| { FirstWriteOfLonger(past, e, id); }
    forall i, j | 0 <= i < j < |after|
      ensures FirstWrite(past + [e], after[i].id) < FirstWrite(past + [e], after[j].id)
    {
      assert after[i].id == blocks[i].id && Has(blocks, blocks[i].id);
      if j < |blocks| { assert after[j].id == blocks[j].id && Has(blocks, blocks[j].id); }
    }
  }

  lemma {:induction false} ReplayOrder(operations: seq<Envelope<Operation>>)
    ensures InOrderOfFirstWrites(operations, Replayed(operations))
  {
    if operations != [] {
      var past, e := operations[..|operations| - 1], operations[|operations| - 1];
      assert operations == past + [e];
      ReplayOrder(past);
      ReplayContents(past);
      PutKeepsOrder(past, e, Replayed(past));
    }
  }

  /** What a replay yields, told from the operation list alone: the written blocks, each with
      the text of its last writer, in the order of their first writes. */
  lemma ReplayMeaning(operations: seq<Envelope<Operation>>)
    ensures var blocks := Replayed(operations);
            && Distinct(blocks) && InOrderOfFirstWrites(operations, blocks)
            && (forall id :: Has(blocks, id) <==> LastWriter(operations, id).Some?)
            && (forall i :: 0 <= i < |blocks| ==> WrittenLast(operations, blocks[i]))
  {
    ReplayContents(operations);
    ReplayOrder(operations);
  }

  lemma LastWriterIsOne(operations: seq<Envelope<Operation>>, id: string)
    requires LastWriter(operations, id).Some?
    ensures exists i :: 0 <= i < |operations| && operations[i].body == LastWriter(operations, id).value
  {
  }

  /** A replayed document of a chain has the shape that the checkpoint demands. */
  lemma ReplayedShape(c: Crypto, keyId: string, documentId: string, operations: seq<Envelope<Operation>>)
    requires Chain(c, keyId, documentId, operations)
    ensures |Replayed(operations)| <= MAX_BLOCKS
    ensures forall i :: 0 <= i < |Replayed(operations)| ==>
      IsIdentifier(Replayed(operations)[i].id) && IsText(Replayed(operations)[i].text)
  {
    ReplayMeaning(operations);
    var blocks := Replayed(operations);
    forall i | 0 <= i < |blocks| ensures IsIdentifier(blocks[i].id) && IsText(blocks[i].text) {
      assert WrittenLast(operations, blocks[i]);
      LastWriterIsOne(operations, blocks[i].id);
      var k :| 0 <= k < |operations| && operations[k].body == LastWriter(operations, blocks[i].id).value;
      assert ChainLink(c, keyId, documentId, operations[..k], operations[k]);
    }
    if operations != [] {
      var n := |operations| - 1;
      assert ChainLink(c, keyId, documentId, operations[..n], operations[n]);
      ChainPrefix(c, keyId, documentId, operations, n);
      if Has(Replayed(operations[..n]), operations[n].body.blockId) {
        ReplayedShape(c, keyId, documentId, operations[..n]);
      }
    }
  }

  lemma LinkOf(c: Crypto, keyId: string, documentId: string, operations: seq<Envelope<Operation>>, i: nat)
    requires Chain(c, keyId, documentId, operations) && i < |operations|
    ensures ChainLink(c, keyId, documentId, operations[..i], operations[i])
  {
  }

  lemma ChainPrefix(c: Crypto, keyId: string, documentId: string, operations: seq<Envelope<Operation>>, n: nat)
    requires Chain(c, keyId, documentId, operations) && n <= |operations|
    ensures Chain(c, keyId, documentId, operations[..n])
  {
    forall i | 0 <= i < n ensures ChainLink(c, keyId, documentId, operations[..n][..i], operations[..n][i]) {
      assert operations[..n][..i] == operations[..i];
    }
  }

  lemma ChainExtends(c: Crypto, keyId: string, documentId: string, past: seq<Envelope<Operation>>,
                     e: Envelope<Operation>)
    requires Chain(c, keyId, documentId, past) && ChainLink(c, keyId, documentId, past, e)
    ensures Chain(c, keyId, documentId, past + [e])
  {
    forall i | 0 <= i < |past| + 1 ensures ChainLink(c, keyId, documentId, (past + [e])[..i], (past + [e])[i]) {
      assert (past + [e])[..i] == past[..i];
      if i == |past| { assert past[..i] == past; }
    }
  }

  // ----- the writer

  datatype EditorState = EditorState(documentId: string, keyId: string, blocks: seq<Block>,
                                     operations: seq<Envelope<Operation>>, lastTime: Option<int>)
  {
    /** The clock gives no usable time when it moved backwards or reads no time at all. */
    predicate TimeOk(now: Option<int>) {
      now.Some? && (lastTime.Some? ==> lastTime.value <= now.value)
    }

    /** The envelope that one more write would append. */
    function Draft(c: Crypto, blockId: string, text: string, activity: Activity, at: int): Envelope<Operation> {
      var before, after := Document(documentId, blocks), Document(documentId, Put(blocks, blockId, text));
      var body := Operation(documentId, |operations| + 1, Head(c, operations), c.documentDigest(before),
                            c.documentDigest(after), blockId, text, activity, at);
      Envelope(keyId, body, c.sign(keyId, Written(body)))
    }

    predicate WithinLimits(blockId: string, text: string, now: Option<int>) {
      && IsIdentifier(blockId) && IsText(text) && |operations| < MAX_OPERATIONS
      && (Has(blocks, blockId) || |blocks| < MAX_BLOCKS) && TimeOk(now)
    }

    predicate MayWrite(c: Crypto, blockId: string, text: string, activity: Activity, now: Option<int>) {
      && WithinLimits(blockId, text, now)
      && c.draftSize(operations + [Draft(c, blockId, text, activity, now.value)],
                     Document(documentId, Put(blocks, blockId, text)))
         <= MAX_JSON - 4096
    }

    /** The snapshot of this state with its signed checkpoint. */
    function Closing(c: Crypto, at: int): SignedSnapshot {
      var body := Checkpoint(documentId, |operations|, Head(c, operations), Document(documentId, blocks), at);
      SignedSnapshot(documentId, operations, Envelope(keyId, body, c.sign(keyId, Closed(body))))
    }
  }

  /** The state of an editor is the replay of its own chain, and its clock is not behind it. */
  ghost predicate Consistent(c: Crypto, e: EditorState) {
    && Signs(c) && IsIdentifier(e.documentId)
    && Chain(c, e.keyId, e.documentId, e.operations) && e.blocks == Replayed(e.operations)
    && |e.operations| <= MAX_OPERATIONS
    && (e.operations != [] ==> e.lastTime.Some? && e.operations[|e.operations| - 1].body.observedAt <= e.lastTime.value)
  }

  lemma DraftContinues(c: Crypto, s: EditorState, blockId: string, text: string, activity: Activity, now: Option<int>)
    requires Consistent(c, s) && s.MayWrite(c, blockId, text, activity, now)
    ensures Consistent(c, s.(blocks := Put(s.blocks, blockId, text), lastTime := now,
                             operations := s.operations + [s.Draft(c, blockId, text, activity, now.value)]))
  {
    var e := s.Draft(c, blockId, text, activity, now.value);
    assert (s.operations + [e])[..|s.operations|] == s.operations;
    ChainExtends(c, s.keyId, s.documentId, s.operations, e);
  }

  /** A snapshot of a consistent state is accepted, whatever was written before. */
  lemma ClosingIsAccepted(c: Crypto, s: EditorState, now: Option<int>)
    requires Consistent(c, s) && s.operations != [] && s.TimeOk(now)
    requires c.snapshotSize(s.Closing(c, now.value)) <= MAX_JSON
    ensures Accepted(c, s.keyId, s.Closing(c, now.value)) && ViewOf(c, s.Closing(c, now.value)).blocks == s.blocks
  {
    NotEmpty(s.operations);
    ReplayContents(s.operations);
    ReplayedShape(c, s.keyId, s.documentId, s.operations);
  }

  lemma NotEmpty(operations: seq<Envelope<Operation>>)
    ensures Replayed(operations) == [] <==> operations == []
  {
  }

  class Editor {
    const crypto: Crypto
    const documentId: string
    const keyId: string
    var blocks: seq<Block>
    var operations: seq<Envelope<Operation>>
    var lastTime: Option<int>

    function State(): EditorState
      reads this
    {
      EditorState(documentId, keyId, blocks, operations, lastTime)
    }

    ghost predicate Valid()
      reads this
    {
      Consistent(crypto, State())
    }

    constructor (crypto: Crypto, documentId: string, keyId: string)
      requires Signs(crypto) && IsIdentifier(documentId)
      ensures Valid() && State() == EditorState(documentId, keyId, [], [], None) && this.crypto == crypto
    {
      this.crypto, this.documentId, this.keyId := crypto, documentId, keyId;
      blocks, operations, lastTime := [], [], None;
    }

    /** Sign the operation that takes the current document to the next. */
    method Compose(blockId: string, text: string, activity: Activity, at: int) returns (envelope: Envelope<Operation>)
      ensures envelope == State().Draft(crypto, blockId, text, activity, at)
    {
      var before := Document(documentId, blocks);
      var after := Document(documentId, Put(blocks, blockId, text));
      var previous := if operations == [] then GENESIS else crypto.envelopeDigest(operations[|operations| - 1]);
      var body := Operation(documentId, |operations| + 1, previous, crypto.documentDigest(before),
                            crypto.documentDigest(after), blockId, text, activity, at);
      envelope := Envelope(keyId, body, crypto.sign(keyId, Written(body)));
    }

    /** None: an input error, and nothing changed. */
    method SetBlock(blockId: string, text: string, activity: Activity,
                    now: Option<int>) returns (r: Option<Envelope<Operation>>)
      requires Valid()
      modifies this
      ensures Valid()
      ensures r.Some? <==> old(State()).MayWrite(crypto, blockId, text, activity, now)
      ensures r.None? ==> State() == old(State())
      ensures r.Some? ==>
                && r.value == old(State()).Draft(crypto, blockId, text, activity, now.value)
                && State() == old(State()).(blocks := Put(old(blocks), blockId, text), lastTime := now,
                                            operations := old(operations) + [r.value])
    {
      var was := State();
      if !was.WithinLimits(blockId, text, now) { return None; }
      var replacement := Put(blocks, blockId, text);
      var after := Document(documentId, replacement);
      var envelope := Compose(blockId, text, activity, now.value);
      var prospective := operations + [envelope];
      if crypto.draftSize(prospective, after) > MAX_JSON - 4096 { return None; }
      DraftContinues(crypto, was, blockId, text, activity, now);
      blocks, operations, lastTime := replacement, prospective, now;
      assert State() == was.(blocks := replacement, lastTime := now, operations := prospective);
      return Some(envelope);
    }

    /** Sign the checkpoint that closes the current document. */
    method Close(at: int) returns (s: SignedSnapshot)
      requires operations != []
      ensures s == State().Closing(crypto, at)
    {
      var body := Checkpoint(documentId, |operations|, crypto.envelopeDigest(operations[|operations| - 1]),
                             Document(documentId, blocks), at);
      s := SignedSnapshot(documentId, operations, Envelope(keyId, body, crypto.sign(keyId, Closed(body))));
    }

    method Snapshot(now: Option<int>) returns (r: Option<SignedSnapshot>)
      requires Valid()
      modifies this`lastTime
      ensures Valid()
      ensures r.Some? <==>
        && old(State().blocks != [] && State().TimeOk(now))
        && crypto.snapshotSize(old(State()).Closing(crypto, now.value)) <= MAX_JSON
      ensures r.None? ==> State() == old(State())
      ensures r.Some? ==>
                && r.value == old(State()).Closing(crypto, now.value) && State() == old(State()).(lastTime := now)
                && Accepted(crypto, keyId, r.value) && ViewOf(crypto, r.value).blocks == blocks
    {
      if |blocks| == 0 || now.None? || (lastTime.Some? && now.value < lastTime.value) { return None; }
      NotEmpty(operations);
      var s := Close(now.value);
      if crypto.snapshotSize(s) > MAX_JSON { return None; }
      ClosingIsAccepted(crypto, State(), now);
      lastTime := now;
      return Some(s);
    }
  }

  // ----- the verifier

  /** The checks on one operation of the replay, against the state replayed so far. */
  method CheckLink(c: Crypto, keyId: string, documentId: string, ghost past: seq<Envelope<Operation>>,
                   e: Envelope<Operation>, sequence: int, previous: Digest, lastTime: Option<int>, blocks: seq<Block>)
    returns (ok: bool)
    requires OperationShape(e.body) && sequence == |past| + 1 && previous == Head(c, past) && blocks == Replayed(past)
    requires lastTime == if past == [] then None else Some(past[|past| - 1].body.observedAt)
    ensures ok <==> ChainLink(c, keyId, documentId, past, e)
  {
    var body := e.body;
    if !Authentic(c, keyId, e, Written(body)) { return false; }
    if body.documentId != documentId || body.sequence != sequence { return false; }
    if body.previous != previous || body.before != c.documentDigest(Document(documentId, blocks)) { return false; }
    if lastTime.Some? && body.observedAt < lastTime.value { return false; }
    if !Has(blocks, body.blockId) && |blocks| >= MAX_BLOCKS { return false; }
    return body.after == c.documentDigest(Document(documentId, Put(blocks, body.blockId, body.text)));
  }

  datatype Replay = Replay(blocks: seq<Block>, lastWrites: map<string, Operation>, observed: set<Activity>,
                           head: Digest)

  ghost predicate Replays(c: Crypto, operations: seq<Envelope<Operation>>, r: Replay) {
    && r.blocks == Replayed(operations) && Remembers(r.lastWrites, operations)
    && r.observed == ActivitiesOf(operations) && r.head == Head(c, operations)
  }

  lemma ReplaysLonger(c: Crypto, past: seq<Envelope<Operation>>, e: Envelope<Operation>, r: Replay)
    requires Replays(c, past, r)
    ensures Replays(c, past + [e],
                    Replay(Put(r.blocks, e.body.blockId, e.body.text), r.lastWrites[e.body.blockId := e.body],
                           r.observed + (if IsAi(e.body.activity) then {e.body.activity} else {}), c.envelopeDigest(e)))
  {
  }

  method ReplayChain(c: Crypto, keyId: string, documentId: string,
                     operations: seq<Envelope<Operation>>) returns (r: Option<Replay>)
    requires forall i :: 0 <= i < |operations| ==> OperationShape(operations[i].body)
    ensures r.Some? <==> Chain(c, keyId, documentId, operations)
    ensures r.Some? ==> Replays(c, operations, r.value)
  {
    var blocks: seq<Block> := [];
    var lastWrites: map<string, Operation> := map[];
    var previous, observed := GENESIS, {};
    var lastTime: Option<int> := None;
    for i := 0 to |operations|
      invariant Chain(c, keyId, documentId, operations[..i])
      invariant Replays(c, operations[..i], Replay(blocks, lastWrites, observed, previous))
      invariant lastTime == if i == 0 then None else Some(operations[i - 1].body.observedAt)
    {
      var e := operations[i];
      ghost var past := operations[..i];
      assert operations[..i + 1] == past + [e];
      var ok := CheckLink(c, keyId, documentId, past, e, i + 1, previous, lastTime, blocks);
      if !ok {
        if Chain(c, keyId, documentId, operations) { LinkOf(c, keyId, documentId, operations, i); }
        return None;
      }
      ChainExtends(c, keyId, documentId, past, e);
      ReplaysLonger(c, past, e, Replay(blocks, lastWrites, observed, previous));
      blocks := Put(blocks, e.body.blockId, e.body.text);
      observed := observed + if IsAi(e.body.activity) then {e.body.activity} else {};
      lastWrites := lastWrites[e.body.blockId := e.body];
      previous, lastTime := c.envelopeDigest(e), Some(e.body.observedAt);
    }
    assert operations[..|operations|] == operations;
    return Some(Replay(blocks, lastWrites, observed, previous));
  }

  method CollectAdoptions(c: Crypto, ghost operations: seq<Envelope<Operation>>, blocks: seq<Block>,
                          lastWrites: map<string, Operation>) returns (adopted: seq<Adoption>)
    requires forall i :: 0 <= i < |blocks| ==> blocks[i].id in lastWrites
    requires forall i :: 0 <= i < |blocks| ==> LastWriter(operations, blocks[i].id) == Some(lastWrites[blocks[i].id])
    ensures adopted == Adoptions(c, operations, blocks)
  {
    adopted := [];
    for i := 0 to |blocks|
      invariant adopted == Adoptions(c, operations, blocks[..i])
    {
      var b := blocks[i];
      var last := lastWrites[b.id];
      assert blocks[..i + 1][..i] == blocks[..i];
      if IsAi(last.activity) { adopted := adopted + [AdoptionOf(c, b, last)]; }
    }
    assert blocks[..|blocks|] == blocks;
  }

  method ShapesOk(s: SignedSnapshot) returns (ok: bool)
    ensures ok <==>
      && IsIdentifier(s.documentId) && 1 <= |s.operations| <= MAX_OPERATIONS && CheckpointShape(s.checkpoint.body)
                    && forall i :: 0 <= i < |s.operations| ==> OperationShape(s.operations[i].body)
  {
    if !IsIdentifier(s.documentId) || !(1 <= |s.operations| <= MAX_OPERATIONS) { return false; }
    for i := 0 to |s.operations|
      invariant forall k :: 0 <= k < i ==> OperationShape(s.operations[k].body)
    {
      if !OperationShape(s.operations[i].body) { return false; }
    }
    return CheckpointShape(s.checkpoint.body);
  }

  lemma ChainShapes(c: Crypto, keyId: string, documentId: string, operations: seq<Envelope<Operation>>)
    requires Chain(c, keyId, documentId, operations)
    ensures forall i :: 0 <= i < |operations| ==> OperationShape(operations[i].body)
  {
    forall i | 0 <= i < |operations| ensures OperationShape(operations[i].body) {
      assert ChainLink(c, keyId, documentId, operations[..i], operations[i]);
    }
  }

  /** Accepts exactly the snapshots that meet the declarative reading, and then returns exactly
      the replayed document with its last writers. */
  method VerifySnapshot(c: Crypto, keyId: string, s: SignedSnapshot) returns (view: Option<View>)
    ensures view == if Accepted(c, keyId, s) then Some(ViewOf(c, s)) else None
  {
    var shapes := ShapesOk(s);
    if !shapes {
      if Accepted(c, keyId, s) { ChainShapes(c, keyId, s.documentId, s.operations); }
      return None;
    }
    if c.snapshotSize(s) > MAX_JSON { return None; }
    var replay := ReplayChain(c, keyId, s.documentId, s.operations);
    if replay.None? { return None; }
    var cp := s.checkpoint.body;
    if !Authentic(c, keyId, s.checkpoint, Closed(cp)) { return None; }
    var r := replay.value;
    var final := Document(s.documentId, r.blocks);
    if cp.documentId != s.documentId || cp.sequence != |s.operations|
       || cp.chainHead != r.head || cp.document != final {
      return None;
    }
    if cp.observedAt < s.operations[|s.operations| - 1].body.observedAt { return None; }
    ReplayContents(s.operations);
    assert forall i :: 0 <= i < |r.blocks| ==> WrittenLast(s.operations, r.blocks[i]);
    var adopted := CollectAdoptions(c, s.operations, r.blocks, r.lastWrites);
    var source := c.documentDigest(final);
    return Some(View(s.documentId, RevisionOf(|s.operations|, source), r.blocks, Sorted(r.observed), adopted, source,
                     c.snapshotDigest(s), cp.observedAt));
  }

  ghost predicate Remembers(lastWrites: map<string, Operation>, operations: seq<Envelope<Operation>>) {
    forall id :: LastWriter(operations, id) == if id in lastWrites then Some(lastWrites[id]) else None
  }

  // ----- what a chain head commits to

  /** The part of a chain that its head commits to. */
  predicate Linked(c: Crypto, operations: seq<Envelope<Operation>>) {
    forall i :: 0 <= i < |operations| ==>
      && operations[i].body.sequence == i + 1
      && (i > 0 ==> operations[i].body.previous == c.envelopeDigest(operations[i - 1]))
  }

  lemma ChainIsLinked(c: Crypto, keyId: string, documentId: string, operations: seq<Envelope<Operation>>)
    requires Chain(c, keyId, documentId, operations)
    ensures Linked(c, operations)
  {
    forall i | 0 <= i < |operations|
      ensures operations[i].body.sequence == i + 1
      ensures (i > 0 ==> operations[i].body.previous == c.envelopeDigest(operations[i - 1]))
    {
      assert ChainLink(c, keyId, documentId, operations[..i], operations[i]);
    }
  }

  ghost predicate Collide(c: Crypto, operations: seq<Envelope<Operation>>, operations': seq<Envelope<Operation>>) {
    exists d, e :: d in operations && e in operations' && d != e && c.envelopeDigest(d) == c.envelopeDigest(e)
  }

  lemma {:induction false} SameSuffix(c: Crypto, ops: seq<Envelope<Operation>>, ops': seq<Envelope<Operation>>, k: nat)
    requires Linked(c, ops) && Linked(c, ops') && |ops| == |ops'| && k < |ops| && ops[k..] == ops'[k..]
    ensures ops == ops' || Collide(c, ops, ops')
    decreases k
  {
    if k > 0 {
      assert ops[k] == ops[k..][0] && ops'[k] == ops'[k..][0];
      var d, e := ops[k - 1], ops'[k - 1];
      assert d in ops && e in ops';
      if d == e {
        assert ops[k - 1..] == [d] + ops[k..] && ops'[k - 1..] == [e] + ops'[k..];
        SameSuffix(c, ops, ops', k - 1);
      }
    }
  }

  /** Two accepted snapshots with the same chain head have the same operation list, down to the
      signatures, unless the two lists show a collision of the digest. */
  lemma HeadCommitsToHistory(c: Crypto, keyId: string, keyId': string, s: SignedSnapshot, s': SignedSnapshot)
    requires Accepted(c, keyId, s) && Accepted(c, keyId', s')
    requires s.checkpoint.body.chainHead == s'.checkpoint.body.chainHead
    ensures s.operations == s'.operations || Collide(c, s.operations, s'.operations)
  {
    var ops, ops' := s.operations, s'.operations;
    ChainIsLinked(c, keyId, s.documentId, ops);
    ChainIsLinked(c, keyId', s'.documentId, ops');
    var d, e := ops[|ops| - 1], ops'[|ops'| - 1];
    assert d in ops && e in ops';
    if d == e { SameSuffix(c, ops, ops', |ops| - 1); }
  }

  // ----- the renderer's check of a view

  predicate ViewOk(c: Crypto, v: View) {
    && IsIdentifier(v.revision) && DocumentShape(Document(v.documentId, v.blocks)) && ActivitiesOk(v.observedActivities)
    && IsHex(v.source, 64) && IsHex(v.lineage, 64) && c.documentDigest(Document(v.documentId, v.blocks)) == v.source
    && |v.adopted| <= MAX_BLOCKS
    && (forall i, j :: 0 <= i < j < |v.adopted| ==> v.adopted[i].blockId != v.adopted[j].blockId)
    && forall i :: 0 <= i < |v.adopted| ==> AdoptionOk(c, v, v.adopted[i])
  }

  function Alphabetically(a: Activity): nat {
    match a
    case Generation => 0
    case Proofreading => 1
    case SubstantiveEditing => 2
    case Translation => 3
    case _ => 4
  }

  /** AI activities only, sorted and without repetition. */
  predicate ActivitiesOk(activities: seq<Activity>) {
    activities == [] ||
    (&& IsAi(activities[0]) && ActivitiesOk(activities[1..])
     && forall a :: a in activities[1..] ==> Alphabetically(activities[0]) < Alphabetically(a))
  }

  predicate AdoptionOk(c: Crypto, v: View, a: Adoption) {
    && IsIdentifier(a.blockId) && IsIdentifier(a.revision) && IsHex(a.digest, 64)
    && a.activity in v.observedActivities && a.observedAt <= v.observedAt
    && exists i :: 0 <= i < |v.blocks| && v.blocks[i].id == a.blockId && a.digest == c.textDigest(v.blocks[i].text)
  }

  lemma {:induction false} SelectIsOk(from: seq<Activity>, activities: set<Activity>)
    requires ActivitiesOk(from)
    ensures ActivitiesOk(Select(from, activities))
    ensures forall a :: a in Select(from, activities) <==> a in from && a in activities
  {
    if from != [] {
      var rest := from[1..];
      assert from == [from[0]] + rest;
      SelectIsOk(rest, activities);
      if from[0] in activities {
        assert Select(from, activities)[1..] == Select(rest, activities);
      } else {
        assert Select(from, activities) == Select(rest, activities);
      }
    }
  }

  lemma AlphabeticalIsOk()
    ensures ActivitiesOk(ALPHABETICAL) && forall a :: IsAi(a) ==> a in ALPHABETICAL
  {
    var three := ALPHABETICAL[1..];
    assert three == [Proofreading, SubstantiveEditing, Translation];
    assert three[1..] == [SubstantiveEditing, Translation] && three[1..][1..] == [Translation];
    forall a | IsAi(a) ensures a in ALPHABETICAL {
      assert a == ALPHABETICAL[Alphabetically(a)];
    }
  }

  lemma SortedIsOk(activities: set<Activity>)
    requires forall a :: a in activities ==> IsAi(a)
    ensures ActivitiesOk(Sorted(activities)) && forall a :: a in Sorted(activities) <==> a in activities
  {
    AlphabeticalIsOk();
    SelectIsOk(ALPHABETICAL, activities);
  }

  lemma DecimalIsShort(n: int)
    requires 0 < n < 100
    ensures 1 <= |Decimal(n)| <= 2 && forall i :: 0 <= i < |Decimal(n)| ==> Alphanumeric(Decimal(n)[i])
  {
    if n >= 10 { assert Decimal(n / 10) == [Digit(n / 10)]; }
  }

  /** The revision label of an accepted operation or snapshot is a bounded identifier. */
  lemma LabelIsIdentifier(sequence: int, digest: Digest)
    requires 1 <= sequence <= MAX_OPERATIONS && IsHex(digest, 64)
    ensures IsIdentifier(RevisionOf(sequence, digest))
  {
    var number, text := Decimal(sequence), RevisionOf(sequence, digest);
    DecimalIsShort(sequence);
    assert text == "rev-" + number + "-" + digest[..24];
    forall i | 0 < i < |text| ensures Alphanumeric(text[i]) || text[i] == '-' {
      if 4 <= i < 4 + |number| { assert text[i] == number[i - 4]; }
      if 5 + |number| <= i { assert text[i] == digest[i - 5 - |number|]; }
    }
  }

  lemma {:induction false} AdoptionsAre(c: Crypto, operations: seq<Envelope<Operation>>, blocks: seq<Block>)
    requires Distinct(blocks)
    ensures var adopted := Adoptions(c, operations, blocks);
            && |adopted| <= |blocks|
            && (forall a :: a in adopted <==> AdoptedIn(c, operations, blocks, a))
            && (forall i, j :: 0 <= i < j < |adopted| ==> adopted[i].blockId != adopted[j].blockId)
  {
    if blocks != [] {
      var n := |blocks| - 1;
      var some, b := blocks[..n], blocks[n];
      AdoptionsAre(c, operations, some);
      forall a ensures AdoptedIn(c, operations, blocks, a) <==>
                       AdoptedIn(c, operations, some, a) || AdoptedBlock(c, operations, b, a) {
        if AdoptedIn(c, operations, blocks, a) {
          var i :| 0 <= i < |blocks| && AdoptedBlock(c, operations, blocks[i], a);
          if i < n { assert some[i] == blocks[i]; }
        }
        if AdoptedIn(c, operations, some, a) {
          var i :| 0 <= i < n && AdoptedBlock(c, operations, some[i], a);
          assert blocks[i] == some[i];
        }
      }
      var earlier := Adoptions(c, operations, some);
      forall i | 0 <= i < |earlier| ensures earlier[i].blockId != b.id {
        assert earlier[i] in earlier;
        assert AdoptedIn(c, operations, some, earlier[i]);
      }
    }
  }

  predicate AdoptedBlock(c: Crypto, operations: seq<Envelope<Operation>>, b: Block, a: Adoption) {
    var last := LastWriter(operations, b.id);
    last.Some? && IsAi(last.value.activity) && a == AdoptionOf(c, b, last.value)
  }

  predicate AdoptedIn(c: Crypto, operations: seq<Envelope<Operation>>, blocks: seq<Block>, a: Adoption) {
    exists i :: 0 <= i < |blocks| && AdoptedBlock(c, operations, blocks[i], a)
  }

  lemma TimesAreOrdered(c: Crypto, keyId: string, s: SignedSnapshot, k: nat)
    requires Accepted(c, keyId, s) && k < |s.operations|
    ensures s.operations[k].body.observedAt <= s.checkpoint.body.observedAt
    decreases |s.operations| - k
  {
    if k + 1 < |s.operations| {
      assert ChainLink(c, keyId, s.documentId, s.operations[..k + 1], s.operations[k + 1]);
      TimesAreOrdered(c, keyId, s, k + 1);
    }
  }

  /** Every view that the verifier returns passes the renderer's own check. */
  lemma VerifiedViewsRender(c: Crypto, keyId: string, s: SignedSnapshot)
    requires Accepted(c, keyId, s) && Hexadecimal(c)
    ensures ViewOk(c, ViewOf(c, s))
  {
    var ops, v := s.operations, ViewOf(c, s);
    ReplayMeaning(ops);
    AdoptionsAre(c, ops, v.blocks);
    SortedIsOk(ActivitiesOf(ops));
    LabelIsIdentifier(|ops|, v.source);
    forall i | 0 <= i < |v.adopted| ensures AdoptionOk(c, v, v.adopted[i]) {
      assert v.adopted[i] in v.adopted;
      AdoptionRenders(c, keyId, s, v.adopted[i]);
    }
  }

  lemma AdoptionRenders(c: Crypto, keyId: string, s: SignedSnapshot, a: Adoption)
    requires Accepted(c, keyId, s) && Hexadecimal(c) && AdoptedIn(c, s.operations, Replayed(s.operations), a)
    ensures AdoptionOk(c, ViewOf(c, s), a)
  {
    var ops, blocks := s.operations, Replayed(s.operations);
    var k :| 0 <= k < |blocks| && AdoptedBlock(c, ops, blocks[k], a);
    LastWriterIsOne(ops, blocks[k].id);
    var j :| 0 <= j < |ops| && ops[j].body == LastWriter(ops, blocks[k].id).value;
    assert ops[j].body.activity in ActivitiesOf(ops);
    SortedIsOk(ActivitiesOf(ops));
    TimesAreOrdered(c, keyId, s, j);
    assert ChainLink(c, keyId, s.documentId, ops[..j], ops[j]);
    LabelIsIdentifier(ops[j].body.sequence, c.textDigest(blocks[k].text));
  }
}
