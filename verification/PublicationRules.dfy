/** What the editor and its verifier demand and report, told from characters, numbers and dates. */
module PublicationRules {
  import opened Wrappers
  import opened PublicationEditor

  // ----- characters

  const UPPER := "ABCDEFGHIJKLMNOPQRSTUVWXYZ"
  const LOWER := "abcdefghijklmnopqrstuvwxyz"
  const DIGITS := "0123456789"

  lemma UpperWhen(ch: char)
    ensures 'A' <= ch <= 'Z' <==> ch in UPPER
  {
    if 'A' <= ch <= 'Z' { assert UPPER[(ch - 'A') as int] == ch; }
  }

  lemma LowerWhen(ch: char)
    ensures 'a' <= ch <= 'z' <==> ch in LOWER
  {
    if 'a' <= ch <= 'z' { assert LOWER[(ch - 'a') as int] == ch; }
  }

  lemma DigitWhen(ch: char)
    ensures '0' <= ch <= '9' <==> ch in DIGITS
  {
    if '0' <= ch <= '9' { assert DIGITS[(ch - '0') as int] == ch; }
  }

  /** An identifier is 1 to 64 letters, digits, underscores and hyphens, and starts with none of
      the last two. */
  lemma IdentifierWhen(s: string)
    ensures IsIdentifier(s) <==>
      && 1 <= |s| <= 64 && s[0] != '_' && s[0] != '-'
      && forall i :: 0 <= i < |s| ==> s[i] in UPPER || s[i] in LOWER || s[i] in DIGITS || s[i] == '_' || s[i] == '-'
  {
    forall i | 0 <= i < |s| ensures Alphanumeric(s[i]) <==> s[i] in UPPER || s[i] in LOWER || s[i] in DIGITS {
      UpperWhen(s[i]);
      LowerWhen(s[i]);
      DigitWhen(s[i]);
    }
  }

  lemma HexDigitWhen(ch: char)
    ensures '0' <= ch <= '9' || 'a' <= ch <= 'f' <==> ch in "0123456789abcdef"
  {
    var all := "0123456789abcdef";
    if '0' <= ch <= '9' { assert all[(ch - '0') as int] == ch; }
    if 'a' <= ch <= 'f' { assert all[10 + (ch - 'a') as int] == ch; }
  }

  lemma HexWhen(s: string, size: nat)
    ensures IsHex(s, size) <==> |s| == size && forall i :: 0 <= i < |s| ==> s[i] in "0123456789abcdef"
  {
    forall i | 0 <= i < |s| ensures '0' <= s[i] <= '9' || 'a' <= s[i] <= 'f' <==> s[i] in "0123456789abcdef" {
      HexDigitWhen(s[i]);
    }
  }

  /** A text is at most 8192 characters, none of them a control character but tabs and line ends. */
  lemma TextWhen(s: string)
    ensures IsText(s) <==>
      && |s| <= 8192
      && forall i :: 0 <= i < |s| ==>
           s[i] == '\t' || s[i] == '\n' || s[i] == '\r' || (' ' <= s[i] && s[i] != '\U{7F}')
  {
  }

  // ----- shapes

  lemma DocumentWhen(d: Document)
    ensures DocumentShape(d) <==>
      && IsIdentifier(d.id) && 1 <= |d.blocks| <= 16
      && (forall i :: 0 <= i < |d.blocks| ==> IsIdentifier(d.blocks[i].id) && IsText(d.blocks[i].text))
      && forall i, j :: 0 <= i < |d.blocks| && 0 <= j < |d.blocks| && d.blocks[i].id == d.blocks[j].id ==> i == j
  {
  }

  lemma AiWhen(a: Activity)
    ensures IsAi(a) <==> a == Generation || a == SubstantiveEditing || a == Proofreading || a == Translation
  {
  }

  // ----- the chain

  /** A chain starts at 64 zeros. */
  lemma ChainStarts(c: Crypto)
    ensures |Head(c, [])| == 64 && forall i :: 0 <= i < 64 ==> Head(c, [])[i] == '0'
  {
  }

  /** An operation continues a chain exactly when the collector signed it as the next one of this
      document, it joins the digest of the document so far to the digest of the document with its
      block set, and neither the number of operations, nor of blocks, nor its time is out of line. */
  lemma LinkWhen(c: Crypto, keyId: string, documentId: string, past: seq<Envelope<Operation>>, e: Envelope<Operation>)
    ensures ChainLink(c, keyId, documentId, past, e) <==>
      var blocks, op := Replayed(past), e.body;
      var before := c.documentDigest(Document(documentId, blocks));
      var after := c.documentDigest(Document(documentId, Put(blocks, op.blockId, op.text)));
      && e.keyId == keyId && c.verifies(keyId, Written(op), e.signature) && IsHex(e.signature, 128)
      && op == Operation(documentId, |past| + 1, Head(c, past), before, after, op.blockId, op.text, op.activity,
                         op.observedAt)
      && IsIdentifier(documentId) && IsIdentifier(op.blockId) && IsText(op.text)
      && IsHex(Head(c, past), 64) && IsHex(before, 64) && IsHex(after, 64)
      && |past| < 64 && (|blocks| < 16 || Has(blocks, op.blockId))
      && (|past| > 0 ==> past[|past| - 1].body.observedAt <= op.observedAt)
  {
  }

  /** A snapshot is accepted exactly when its operations are a chain of at most 64 from the start,
      and its checkpoint, signed by the collector, names their number, their head, the document
      that they replay to and a time no earlier than the last of them. */
  lemma AcceptedWhen(c: Crypto, keyId: string, s: SignedSnapshot)
    ensures Accepted(c, keyId, s) <==>
      && 1 <= |s.operations| <= 64 && c.snapshotSize(s) <= 4194304
      && (forall i {:trigger ChainLink(c, keyId, s.documentId, s.operations[..i], s.operations[i])} ::
            0 <= i < |s.operations| ==> ChainLink(c, keyId, s.documentId, s.operations[..i], s.operations[i]))
      && var document := Document(s.documentId, Replayed(s.operations));
         var at := s.checkpoint.body.observedAt;
         && s.checkpoint.keyId == keyId
         && s.checkpoint.body == Checkpoint(s.documentId, |s.operations|, Head(c, s.operations), document, at)
         && c.verifies(keyId, Closed(s.checkpoint.body), s.checkpoint.signature)
         && IsHex(s.checkpoint.signature, 128) && IsHex(Head(c, s.operations), 64) && DocumentShape(document)
         && s.operations[|s.operations| - 1].body.observedAt <= at
  {
  }

  // ----- the editor

  /** A block may be set exactly when its id and text are well-formed, there is room for one more
      operation and for the block, the clock has not gone back, and the draft leaves 4096
      characters of the four mebibytes of a snapshot for its checkpoint. */
  lemma MayWriteWhen(c: Crypto, s: EditorState, blockId: string, text: string, activity: Activity, now: Option<int>)
    ensures s.MayWrite(c, blockId, text, activity, now) <==>
      && IsIdentifier(blockId) && IsText(text) && |s.operations| < 64
      && (|s.blocks| < 16 || exists i :: 0 <= i < |s.blocks| && s.blocks[i].id == blockId)
      && now.Some? && (s.lastTime.Some? ==> s.lastTime.value <= now.value)
      && var blocks := Put(s.blocks, blockId, text);
         var op := Operation(s.documentId, |s.operations| + 1, Head(c, s.operations),
                             c.documentDigest(Document(s.documentId, s.blocks)),
                             c.documentDigest(Document(s.documentId, blocks)), blockId, text, activity, now.value);
         c.draftSize(s.operations + [Envelope(s.keyId, op, c.sign(s.keyId, Written(op)))],
                     Document(s.documentId, blocks)) <= 4190208
  {
  }

  // ----- the view

  function ValueOf(s: string): int
    requires forall i :: 0 <= i < |s| ==> '0' <= s[i] <= '9'
  {
    if s == "" then 0 else 10 * ValueOf(s[..|s| - 1]) + (s[|s| - 1] - '0') as int
  }

  /** A decimal reads back as its number, and has no leading zero. */
  lemma {:induction false} DecimalReads(n: nat)
    ensures var s := Decimal(n);
            && (forall i :: 0 <= i < |s| ==> '0' <= s[i] <= '9') && ValueOf(s) == n
            && |s| >= 1 && (n > 0 ==> s[0] != '0')
    decreases n
  {
    var s := Decimal(n);
    if n >= 10 {
      DecimalReads(n / 10);
      assert s[..|s| - 1] == Decimal(n / 10);
    } else {
      assert s[..0] == "";
    }
  }

  /** A label is the number and the first 24 digits of the digest. */
  lemma LabelWhen(sequence: nat, digest: Digest)
    requires IsHex(digest, 64)
    ensures RevisionOf(sequence, digest) == "rev-" + Decimal(sequence) + "-" + digest[..24]
  {
  }

  /** The view of a snapshot: the replayed blocks, the AI activities seen in any operation, and,
      for the blocks whose last writer was one, that writer's activity, time and label. */
  lemma ViewWhen(c: Crypto, s: SignedSnapshot)
    ensures var v, ops := ViewOf(c, s), s.operations;
      && v.documentId == s.documentId && v.blocks == Replayed(ops)
      && v.observedAt == s.checkpoint.body.observedAt && v.lineage == c.snapshotDigest(s)
      && v.source == c.documentDigest(Document(s.documentId, v.blocks)) && v.revision == RevisionOf(|ops|, v.source)
      && (forall a :: a in v.observedActivities <==>
                      IsAi(a) && exists i :: 0 <= i < |ops| && ops[i].body.activity == a)
      && (forall a :: a in v.adopted <==>
            exists i :: 0 <= i < |v.blocks| && Adopts(c, ops, v.blocks[i], a))
  {
    SortedIsOk(ActivitiesOf(s.operations));
    ReplayContents(s.operations);
    AdoptionsAre(c, s.operations, Replayed(s.operations));
    forall b, a ensures Adopts(c, s.operations, b, a) <==> AdoptedBlock(c, s.operations, b, a) { }
  }

  predicate Adopts(c: Crypto, operations: seq<Envelope<Operation>>, b: Block, a: Adoption) {
    var last := LastWriter(operations, b.id);
    && last.Some? && last.value.activity != Import && last.value.activity != ManualEdit
    && a == Adoption(b.id, RevisionOf(last.value.sequence, c.textDigest(b.text)), c.textDigest(b.text),
                     last.value.activity, last.value.observedAt)
  }

  /** An adoption is of a block that is there with this text, by an activity that was seen, no
      later than the view. */
  lemma AdoptionOkWhen(c: Crypto, v: View, a: Adoption)
    ensures AdoptionOk(c, v, a) <==>
      && IsIdentifier(a.blockId) && IsIdentifier(a.revision) && IsHex(a.digest, 64)
      && a.activity in v.observedActivities && a.observedAt <= v.observedAt
      && exists text :: Block(a.blockId, text) in v.blocks && a.digest == c.textDigest(text)
  {
    if text :| Block(a.blockId, text) in v.blocks && a.digest == c.textDigest(text) {
      var k :| 0 <= k < |v.blocks| && v.blocks[k] == Block(a.blockId, text);
    }
    if k :| 0 <= k < |v.blocks| && v.blocks[k].id == a.blockId && a.digest == c.textDigest(v.blocks[k].text) {
      assert Block(a.blockId, v.blocks[k].text) in v.blocks;
    }
  }

  /** The names of the AI activities, as they are sorted. */
  function NameOf(a: Activity): string {
    match a
    case Import => "import" case ManualEdit => "manual_edit" case Generation => "generation"
    case Proofreading => "proofreading" case SubstantiveEditing => "substantive_editing"
    case Translation => "translation"
  }

  /** Activities are in order exactly when they are AI activities whose names' initials, all
      different, only go up. */
  lemma {:induction false} ActivitiesWhen(activities: seq<Activity>)
    ensures ActivitiesOk(activities) <==>
      && (forall i :: 0 <= i < |activities| ==> activities[i] != Import && activities[i] != ManualEdit)
      && forall i, j :: 0 <= i < j < |activities| ==> NameOf(activities[i])[0] < NameOf(activities[j])[0]
  {
    if activities != [] {
      var first, rest := activities[0], activities[1..];
      ActivitiesWhen(rest);
      forall a | IsAi(a) && IsAi(first)
        ensures Alphabetically(first) < Alphabetically(a) <==> NameOf(first)[0] < NameOf(a)[0]
      {
      }
      assert forall i :: 0 <= i < |rest| ==> rest[i] == activities[i + 1];
    }
  }

  /** The renderer takes exactly the views that are self-consistent: labels and digests in shape,
      the source digest the document's own, activities sorted, and one adoption a block at most. */
  lemma ViewOkWhen(c: Crypto, v: View)
    ensures ViewOk(c, v) <==>
      && IsIdentifier(v.revision) && DocumentShape(Document(v.documentId, v.blocks))
      && ActivitiesOk(v.observedActivities)
      && v.source == c.documentDigest(Document(v.documentId, v.blocks)) && IsHex(v.source, 64) && IsHex(v.lineage, 64)
      && |v.adopted| <= 16 && (forall a :: a in v.adopted ==> AdoptionOk(c, v, a))
      && forall i, j :: 0 <= i < |v.adopted| && 0 <= j < |v.adopted| && i != j ==>
           v.adopted[i].blockId != v.adopted[j].blockId
  {
    assert (forall a :: a in v.adopted ==> AdoptionOk(c, v, a)) <==>
           (forall i :: 0 <= i < |v.adopted| ==> AdoptionOk(c, v, v.adopted[i]));
  }
}
