/**
 * The file-relay bot's state and handlers (bot.py:21-159). The staging table
 * `temp_files` and the committed table `files` are sequences of records in
 * insertion order; each handler returns the reply it would send.
 */
module Bot {
  import opened Wrappers
  import opened Collections
  import opened ShareCode
  import opened Media

  /** A `temp_files` document: an upload waiting for `/savefiles`. */
  datatype StagedRec = StagedRec(userId: UserId, fileId: FileId, fileType: string, caption: Option<string>)

  /** A `files` document: an uploaded file saved under a share code. */
  datatype CommittedRec = CommittedRec(fileId: FileId, code: string, userId: UserId, fileType: string, caption: Option<string>)

  /** What a handler answers: a text, nothing at all, or the replayed files. */
  datatype Reply = Text(text: string) | Silent | Replays(items: seq<Replay>)

  const NotAuthorizedUpload := "You are not authorized to upload files."
  const FileReceived := "File received! Use /savefiles to save it."
  const NotAuthorizedSave := "You are not authorized to save files."
  const NothingToSave := "No files found! Please upload files before using this command."
  const InvalidLink := "Invalid or expired link."
  const Welcome := "Welcome! Upload files first, then use /savefiles to save them."
  const NotAuthorizedDelete := "You are not authorized to delete files."
  const DeleteUsage := "Usage: /deletefiles <code>"
  const DeleteNotFound := "Either the code is invalid or you are not the owner of these files."
  const Deleted := "Files successfully deleted!"
  const NotAuthorizedView := "You are not authorized to view files."
  const NothingToView := "No files found."
  const ListingHeader := "Files uploaded by you:\n"

  // Store filters, one per query the handlers issue.

  /** `{"user_id": u}` on the staging table. */
  function StagedBy(u: UserId): StagedRec -> bool {
    (r: StagedRec) => r.userId == u
  }

  /** `{"code": code}` on the committed table. */
  function WithCode(code: string): CommittedRec -> bool {
    (r: CommittedRec) => r.code == code
  }

  /** `{"user_id": u}` on the committed table. */
  function OwnedBy(u: UserId): CommittedRec -> bool {
    (r: CommittedRec) => r.userId == u
  }

  /** `{"code": code, "user_id": u}` on the committed table. */
  function WithCodeAndOwner(code: string, u: UserId): CommittedRec -> bool {
    (r: CommittedRec) => r.code == code && r.userId == u
  }

  /** The records retrieval finds for a code, in table order. */
  function Lookup(committed: seq<CommittedRec>, code: string): (r: seq<CommittedRec>)
    ensures forall x :: x in r <==> x in committed && x.code == code
  {
    Filter(committed, WithCode(code))
  }

  // Commit: staged records become committed records under one code.

  /** The committed record written for one staged record. */
  function Tag(s: StagedRec, code: string, u: UserId): CommittedRec {
    CommittedRec(s.fileId, code, u, s.fileType, s.caption)
  }

  /** The records one commit appends, one per staged record and in the same order. */
  function Tagged(batch: seq<StagedRec>, code: string, u: UserId): (t: seq<CommittedRec>)
    ensures |t| == |batch|
    ensures forall i :: 0 <= i < |t| ==> t[i].code == code && t[i].userId == u
  {
    seq(|batch|, i requires 0 <= i < |batch| => Tag(batch[i], code, u))
  }

  /** The staged record a committed record came from. */
  function Untag(c: CommittedRec): StagedRec {
    StagedRec(c.userId, c.fileId, c.fileType, c.caption)
  }

  function UntagAll(cs: seq<CommittedRec>): (s: seq<StagedRec>)
    ensures |s| == |cs|
  {
    seq(|cs|, i requires 0 <= i < |cs| => Untag(cs[i]))
  }

  /**
   * A commit loses nothing: when the batch is the caller's own staged
   * records, stripping the code from what was written gives the batch back,
   * file id, type and caption included, in order.
   */
  lemma CommitRoundTrip(batch: seq<StagedRec>, code: string, u: UserId)
    requires forall i :: 0 <= i < |batch| ==> batch[i].userId == u
    ensures UntagAll(Tagged(batch, code, u)) == batch
  {
  }

  /** After a commit the caller has no staged record left. */
  lemma {:induction false} CommitClearsCaller(staged: seq<StagedRec>, u: UserId)
    ensures Filter(Filter(staged, Not(StagedBy(u))), StagedBy(u)) == []
  {
    FilterNone(Filter(staged, Not(StagedBy(u))), StagedBy(u));
  }

  /**
   * A commit leaves every other user's staged records as they were, and
   * removes exactly the caller's: the staging table shrinks by the batch size.
   */
  lemma {:induction false} CommitKeepsOthers(staged: seq<StagedRec>, u: UserId, v: UserId)
    requires v != u
    ensures Filter(Filter(staged, Not(StagedBy(u))), StagedBy(v)) == Filter(staged, StagedBy(v))
    ensures |Filter(staged, Not(StagedBy(u)))| + |Filter(staged, StagedBy(u))| == |staged|
  {
    FilterNarrow(staged, Not(StagedBy(u)), StagedBy(v));
    FilterPartition(staged, StagedBy(u));
  }

  /**
   * Nothing guards against reusing a code: looking a code up after a commit
   * gives the records it already named followed by the new batch. When the
   * code was unused, the lookup gives exactly the new batch.
   */
  lemma CommitThenLookup(committed: seq<CommittedRec>, batch: seq<StagedRec>, code: string, u: UserId)
    ensures Lookup(committed + Tagged(batch, code, u), code) == Lookup(committed, code) + Tagged(batch, code, u)
    ensures (forall r :: r in committed ==> r.code != code) ==>
      Lookup(committed + Tagged(batch, code, u), code) == Tagged(batch, code, u)
  {
    var t := Tagged(batch, code, u);
    FilterAppend(committed, t, WithCode(code));
    FilterAll(t, WithCode(code));
    if forall r :: r in committed ==> r.code != code {
      FilterNone(committed, WithCode(code));
    }
  }

  // Delete: remove the records matching (code, caller).

  /**
   * Deleting by (code, owner) removes exactly the matching records: none of
   * them remains, every other record survives in order, and the removed
   * and surviving records together are the old table.
   */
  lemma {:induction false} DeleteExact(committed: seq<CommittedRec>, code: string, u: UserId)
    ensures forall r :: r in Filter(committed, Not(WithCodeAndOwner(code, u))) <==>
      r in committed && !(r.code == code && r.userId == u)
    ensures multiset(Filter(committed, Not(WithCodeAndOwner(code, u))))
      + multiset(Filter(committed, WithCodeAndOwner(code, u))) == multiset(committed)
  {
    FilterPartition(committed, WithCodeAndOwner(code, u));
  }

  /** A delete does not change what any other code retrieves. */
  lemma {:induction false} DeleteKeepsOtherCodes(committed: seq<CommittedRec>, code: string, u: UserId, other: string)
    requires other != code
    ensures Lookup(Filter(committed, Not(WithCodeAndOwner(code, u))), other) == Lookup(committed, other)
  {
    FilterNarrow(committed, Not(WithCodeAndOwner(code, u)), WithCode(other));
  }

  /** A delete does not change the records of any other owner. */
  lemma {:induction false} DeleteKeepsOtherOwners(committed: seq<CommittedRec>, code: string, u: UserId, v: UserId)
    requires v != u
    ensures Filter(Filter(committed, Not(WithCodeAndOwner(code, u))), OwnedBy(v)) == Filter(committed, OwnedBy(v))
  {
    FilterNarrow(committed, Not(WithCodeAndOwner(code, u)), OwnedBy(v));
  }

  // View: the owner's listing text.

  /** Python's `f"{caption}"`: the text, or "None" when there is no caption. */
  function CaptionText(caption: Option<string>): string {
    match caption
    case Some(c) => c
    case None => "None"
  }

  /** One line of the listing. */
  function ListingLine(r: CommittedRec): string {
    "Code: " + r.code + ", File ID: " + r.fileId + ", Type: " + r.fileType
      + ", Caption: " + CaptionText(r.caption) + "\n"
  }

  /** The listing lines of some records, one per record and in the same order. */
  function ListingLines(rs: seq<CommittedRec>): (ls: seq<string>)
    ensures |ls| == |rs|
  {
    seq(|rs|, i requires 0 <= i < |rs| => ListingLine(rs[i]))
  }

  /** Lines joined in order, as `response +=` accumulates them. */
  function Joined(ls: seq<string>): string {
    if ls == [] then "" else Joined(ls[..|ls| - 1]) + ls[|ls| - 1]
  }

  /** Joining composes: two runs of lines joined are their joins concatenated. */
  lemma {:induction false} JoinedAppend(a: seq<string>, b: seq<string>)
    ensures Joined(a + b) == Joined(a) + Joined(b)
    decreases |b|
  {
    if b == [] {
      assert a + b == a;
    } else {
      var ab := a + b;
      assert ab[..|ab| - 1] == a + b[..|b| - 1];
      assert ab[|ab| - 1] == b[|b| - 1];
      JoinedAppend(a, b[..|b| - 1]);
    }
  }

  /** Every listed record has its own line, in table order between its neighbours'. */
  lemma ListingShowsEachRecord(rs: seq<CommittedRec>, i: nat)
    requires i < |rs|
    ensures Joined(ListingLines(rs)) ==
      Joined(ListingLines(rs[..i])) + ListingLine(rs[i]) + Joined(ListingLines(rs[i + 1..]))
  {
    var ls := ListingLines(rs);
    assert ls == ListingLines(rs[..i]) + [ls[i]] + ListingLines(rs[i + 1..]);
    JoinedAppend(ListingLines(rs[..i]) + [ls[i]], ListingLines(rs[i + 1..]));
    JoinedAppend(ListingLines(rs[..i]), [ls[i]]);
    assert Joined([ls[i]]) == ls[i] by {
      assert [ls[i]][..0] == [];
    }
  }

  /** The deep link `/savefiles` replies with. */
  function SavedReply(botUsername: string, code: string): (t: string)
    ensures |t| >= |code| + 7 && t[|t| - |code| - 7..] == "?start=" + code
  {
    "Files saved! Share this link: https://t.me/" + botUsername + "?start=" + code
  }

  /**
   * The bot: one configured owner, the staging table and the committed
   * table. Only the owner may upload, save, delete and view; anyone may
   * retrieve by code.
   */
  class FileBot {
    const ownerId: UserId
    var staged: seq<StagedRec>
    var committed: seq<CommittedRec>

    constructor (owner: UserId)
      ensures ownerId == owner && staged == [] && committed == []
    {
      ownerId := owner;
      staged := [];
      committed := [];
    }

    /** `file_handler`: stage one owner upload of a supported modality. */
    method FileHandler(m: Message) returns (reply: Reply)
      modifies this
      ensures committed == old(committed)
      ensures m.sender != ownerId ==> reply == Text(NotAuthorizedUpload) && staged == old(staged)
      ensures m.sender == ownerId && Classify(m).None? ==> reply == Silent && staged == old(staged)
      ensures m.sender == ownerId && Classify(m).Some? ==>
        reply == Text(FileReceived) &&
        staged == old(staged) + [StagedRec(m.sender, Classify(m).value.fileId, Classify(m).value.fileType, m.caption)]
    {
      if m.sender != ownerId {
        return Text(NotAuthorizedUpload);
      }
      var upload := Classify(m);
      if upload.None? {
        return Silent;
      }
      staged := staged + [StagedRec(m.sender, upload.value.fileId, upload.value.fileType, m.caption)];
      reply := Text(FileReceived);
    }

    /**
     * `save_files`: copy the caller's staged records into the committed
     * table under a freshly drawn code, then clear them from staging.
     * `picks` are the code generator's random draws; `botUsername` is the
     * bot's public name used in the deep link.
     */
    method SaveFiles(caller: UserId, picks: seq<nat>, botUsername: string) returns (reply: Reply)
      requires ValidPicks(picks)
      modifies this
      ensures caller != ownerId ==>
        reply == Text(NotAuthorizedSave) && staged == old(staged) && committed == old(committed)
      ensures caller == ownerId && Filter(old(staged), StagedBy(caller)) == [] ==>
        reply == Text(NothingToSave) && staged == old(staged) && committed == old(committed)
      ensures caller == ownerId && Filter(old(staged), StagedBy(caller)) != [] ==>
        committed == old(committed) + Tagged(Filter(old(staged), StagedBy(caller)), GenerateCode(picks), caller) &&
        staged == Filter(old(staged), Not(StagedBy(caller))) &&
        reply == Text(SavedReply(botUsername, GenerateCode(picks)))
    {
      if caller != ownerId {
        return Text(NotAuthorizedSave);
      }
      var code := GenerateCode(picks);
      var batch := Filter(staged, StagedBy(caller));
      if batch == [] {
        return Text(NothingToSave);
      }
      var i := 0;
      while i < |batch|
        invariant 0 <= i <= |batch|
        invariant staged == old(staged)
        invariant committed == old(committed) + Tagged(batch[..i], code, caller)
      {
        assert Tagged(batch[..i + 1], code, caller) == Tagged(batch[..i], code, caller) + [Tag(batch[i], code, caller)];
        committed := committed + [Tag(batch[i], code, caller)];
        i := i + 1;
      }
      assert batch[..i] == batch;
      staged := Filter(staged, Not(StagedBy(caller)));
      reply := Text(SavedReply(botUsername, code));
    }

    /**
     * `start`: with a code argument, replay every committed record carrying
     * that code, in table order; otherwise greet.
     */
    method Start(args: seq<string>) returns (reply: Reply)
      ensures |args| == 0 ==> reply == Text(Welcome)
      ensures |args| > 0 && Lookup(committed, args[0]) == [] ==> reply == Text(InvalidLink)
      ensures |args| > 0 && Lookup(committed, args[0]) != [] ==>
        reply.Replays? && |reply.items| == |Lookup(committed, args[0])| &&
        forall i :: 0 <= i < |reply.items| ==>
          var r := Lookup(committed, args[0])[i];
          reply.items[i] == ReplayFor(r.fileId, r.fileType, r.caption)
    {
      if |args| == 0 {
        return Text(Welcome);
      }
      var found := Lookup(committed, args[0]);
      if found == [] {
        return Text(InvalidLink);
      }
      var sent: seq<Replay> := [];
      for i := 0 to |found|
        invariant |sent| == i
        invariant forall j :: 0 <= j < i ==>
          sent[j] == ReplayFor(found[j].fileId, found[j].fileType, found[j].caption)
      {
        sent := sent + [ReplayFor(found[i].fileId, found[i].fileType, found[i].caption)];
      }
      reply := Replays(sent);
    }

    /** `delete_files`: the owner removes the records saved under a code by them. */
    method DeleteFiles(caller: UserId, args: seq<string>) returns (reply: Reply)
      modifies this
      ensures staged == old(staged)
      ensures caller != ownerId ==> reply == Text(NotAuthorizedDelete) && committed == old(committed)
      ensures caller == ownerId && |args| == 0 ==> reply == Text(DeleteUsage) && committed == old(committed)
      ensures caller == ownerId && |args| > 0 && Filter(old(committed), WithCodeAndOwner(args[0], caller)) == [] ==>
        reply == Text(DeleteNotFound) && committed == old(committed)
      ensures caller == ownerId && |args| > 0 && Filter(old(committed), WithCodeAndOwner(args[0], caller)) != [] ==>
        reply == Text(Deleted) && committed == Filter(old(committed), Not(WithCodeAndOwner(args[0], caller)))
    {
      if caller != ownerId {
        return Text(NotAuthorizedDelete);
      }
      if |args| == 0 {
        return Text(DeleteUsage);
      }
      var code := args[0];
      var count := |Filter(committed, WithCodeAndOwner(code, caller))|;
      if count == 0 {
        return Text(DeleteNotFound);
      }
      committed := Filter(committed, Not(WithCodeAndOwner(code, caller)));
      reply := Text(Deleted);
    }

    /** `view_files`: the owner's listing of every record saved by the owner. */
    method ViewFiles(caller: UserId) returns (reply: Reply)
      ensures caller != ownerId ==> reply == Text(NotAuthorizedView)
      ensures caller == ownerId && Filter(committed, OwnedBy(ownerId)) == [] ==> reply == Text(NothingToView)
      ensures caller == ownerId && Filter(committed, OwnedBy(ownerId)) != [] ==>
        reply == Text(ListingHeader + Joined(ListingLines(Filter(committed, OwnedBy(ownerId)))))
    {
      if caller != ownerId {
        return Text(NotAuthorizedView);
      }
      var owned := Filter(committed, OwnedBy(ownerId));
      if owned == [] {
        return Text(NothingToView);
      }
      ghost var lines := ListingLines(owned);
      var response := ListingHeader;
      for i := 0 to |owned|
        invariant response == ListingHeader + Joined(lines[..i])
      {
        assert lines[..i + 1][..i] == lines[..i];
        response := response + ListingLine(owned[i]);
      }
      assert lines[..|owned|] == lines;
      reply := Text(response);
    }
  }
}

/**
 * An end-to-end scenario, proved from the handlers' contracts: the owner
 * uploads a captioned photo and an uncaptioned document, saves them, and
 * anyone opening the share link gets both back, in upload order, each with
 * its own verb.
 */
module Scenario {
  import opened Wrappers
  import opened Collections
  import opened ShareCode
  import opened Media
  import opened Bot

  method PhotoThenDocument(owner: UserId, stranger: UserId, picks: seq<nat>)
    requires ValidPicks(picks) && stranger != owner
  {
    var bot := new FileBot(owner);
    var none := Message(owner, None, None, [], None, None, None, None, None, None);
    var r := bot.FileHandler(none.(photo := ["P0", "P1"], caption := Some("cat")));
    r := bot.FileHandler(none.(document := Some("D1")));
    var photo, doc := StagedRec(owner, "P1", "photo", Some("cat")), StagedRec(owner, "D1", "document", None);
    assert bot.staged == [photo, doc];
    FilterAll(bot.staged, StagedBy(owner));
    var code := GenerateCode(picks);
    r := bot.SaveFiles(owner, picks, "relaybot");
    var saved := [Tag(photo, code, owner), Tag(doc, code, owner)];
    assert bot.committed == saved;
    FilterAll(saved, WithCode(code));
    r := bot.Start([code]);
    assert r.items[0] == ReplayFor("P1", "photo", Some("cat"));
    assert r.items[1] == ReplayFor("D1", "document", None);
    assert r == Replays([Replay(SendPhoto, "P1", Some("cat")), Replay(SendDocument, "D1", None)]);
    r := bot.DeleteFiles(stranger, [code]);
    assert r == Text(NotAuthorizedDelete);
  }
}
