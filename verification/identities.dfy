/**
 * The identity listing of the agent: which keys are offered, in which order, and how they are written.
 * Lower-casing and UTF-8 encoding of comments are the parameters `Text`.
 */
module Identities {
  import opened Common
  import opened State
  import opened Wire

  const SSH2_AGENT_IDENTITIES_ANSWER: byte := 12

  /** The UTF-8 bytes of a text and of its lower-case form. */
  datatype Text = Text(utf8: string -> Bytes, lower: string -> Bytes)

  const FALLBACK_COMMENT := "Hardware-backed SSH key"

  // ----- the order of keys

  function BackendPriority(preferred: nat, backend: KeyBackend): nat {
    match (preferred, backend)
    case (0, SecureEnclave) => 0
    case (1, Fido2) => 0
    case _ => 1
  }

  /** What `sort_by` compares: the backend first, the lower-case comment second. */
  datatype Rank = Rank(priority: nat, comment: Bytes)

  function RankOf(t: Text, preferred: nat, key: SshKey): Rank {
    Rank(BackendPriority(preferred, key.backend), t.lower(if key.comment.Some? then key.comment.value else ""))
  }

  /** The order of strings: byte by byte, a prefix before its extensions. */
  predicate BytesLeq(a: Bytes, b: Bytes) {
    if a == [] then true
    else if b == [] then false
    else if a[0] != b[0] then a[0] < b[0]
    else BytesLeq(a[1..], b[1..])
  }

  predicate RankLeq(a: Rank, b: Rank) {
    a.priority < b.priority || (a.priority == b.priority && BytesLeq(a.comment, b.comment))
  }

  lemma {:induction false} BytesTotal(a: Bytes, b: Bytes)
    ensures BytesLeq(a, b) || BytesLeq(b, a)
    ensures BytesLeq(a, b) && BytesLeq(b, a) ==> a == b
  {
    if a != [] && b != [] && a[0] == b[0] {
      BytesTotal(a[1..], b[1..]);
      assert a == [a[0]] + a[1..] && b == [b[0]] + b[1..];
    }
  }

  lemma {:induction false} BytesTransitive(a: Bytes, b: Bytes, c: Bytes)
    requires BytesLeq(a, b) && BytesLeq(b, c)
    ensures BytesLeq(a, c)
  {
    if a != [] && a[0] == b[0] == c[0] { BytesTransitive(a[1..], b[1..], c[1..]); }
  }

  lemma RankTransitive(a: Rank, b: Rank, c: Rank)
    requires RankLeq(a, b) && RankLeq(b, c)
    ensures RankLeq(a, c)
  {
    if a.priority == b.priority == c.priority { BytesTransitive(a.comment, b.comment, c.comment); }
  }

  ghost predicate Sorted(t: Text, preferred: nat, keys: seq<SshKey>) {
    forall i, j | 0 <= i < j < |keys| :: RankLeq(RankOf(t, preferred, keys[i]), RankOf(t, preferred, keys[j]))
  }

  function HasRank(t: Text, preferred: nat, rank: Rank): SshKey -> bool {
    (key: SshKey) => RankOf(t, preferred, key) == rank
  }

  /** Keys of equal rank stay in the order they had. */
  ghost predicate SameWithinRanks(t: Text, preferred: nat, before: seq<SshKey>, after: seq<SshKey>) {
    forall rank :: Filter(before, HasRank(t, preferred, rank)) == Filter(after, HasRank(t, preferred, rank))
  }

  ghost predicate StableSortOf(t: Text, preferred: nat, before: seq<SshKey>, after: seq<SshKey>) {
    && Sorted(t, preferred, after)
    && multiset(after) == multiset(before)
    && SameWithinRanks(t, preferred, before, after)
  }

  /** A stable sort leaves no choice, so nothing below depends on how the library sorts. */
  lemma {:induction false} StableSortUnique(t: Text, preferred: nat, xs: seq<SshKey>, ys: seq<SshKey>)
    requires Sorted(t, preferred, xs) && Sorted(t, preferred, ys) && SameWithinRanks(t, preferred, xs, ys)
    ensures xs == ys
  {
    hide RankLeq;
    if xs != [] {
      HeadsAgree(t, preferred, xs, ys);
      forall rank
        ensures Filter(xs[1..], HasRank(t, preferred, rank)) == Filter(ys[1..], HasRank(t, preferred, rank))
      {
        var same := HasRank(t, preferred, rank);
        var head := if same(xs[0]) then [xs[0]] else [];
        assert Filter(xs, same) == head + Filter(xs[1..], same);
        assert Filter(ys, same) == head + Filter(ys[1..], same);
        assert Filter(xs[1..], same) == Filter(xs, same)[|head|..];
      }
      StableSortUnique(t, preferred, xs[1..], ys[1..]);
      assert xs == [xs[0]] + xs[1..] && ys == [ys[0]] + ys[1..];
    } else if ys != [] {
      HeadsAgree(t, preferred, ys, xs);
    }
  }

  lemma HeadsAgree(t: Text, preferred: nat, xs: seq<SshKey>, ys: seq<SshKey>)
    requires Sorted(t, preferred, xs) && Sorted(t, preferred, ys) && SameWithinRanks(t, preferred, xs, ys)
    requires xs != []
    ensures ys != [] && xs[0] == ys[0]
  {
    var rx := RankOf(t, preferred, xs[0]);
    assert xs[0] in Filter(xs, HasRank(t, preferred, rx));
    assert xs[0] in ys;
    var ry := RankOf(t, preferred, ys[0]);
    assert ys[0] in Filter(ys, HasRank(t, preferred, ry));
    assert ys[0] in xs;
    HeadLeast(t, preferred, xs, ys[0]);
    HeadLeast(t, preferred, ys, xs[0]);
    BytesTotal(rx.comment, ry.comment);
    assert Filter(xs, HasRank(t, preferred, rx))[0] == xs[0];
    assert Filter(ys, HasRank(t, preferred, rx))[0] == ys[0];
  }

  lemma HeadLeast(t: Text, preferred: nat, xs: seq<SshKey>, x: SshKey)
    requires Sorted(t, preferred, xs) && x in xs
    ensures RankLeq(RankOf(t, preferred, xs[0]), RankOf(t, preferred, x))
  {
    var i :| 0 <= i < |xs| && xs[i] == x;
    if i == 0 { BytesTotal(RankOf(t, preferred, x).comment, RankOf(t, preferred, x).comment); }
  }

  /** Puts a key in front of the first one that does not come before it. */
  function Insert(t: Text, preferred: nat, key: SshKey, keys: seq<SshKey>): seq<SshKey> {
    if keys == [] || RankLeq(RankOf(t, preferred, key), RankOf(t, preferred, keys[0])) then [key] + keys
    else [keys[0]] + Insert(t, preferred, key, keys[1..])
  }

  function SortKeys(t: Text, preferred: nat, keys: seq<SshKey>): seq<SshKey> {
    if keys == [] then [] else Insert(t, preferred, keys[0], SortKeys(t, preferred, keys[1..]))
  }

  lemma {:induction false} InsertSorted(t: Text, preferred: nat, key: SshKey, keys: seq<SshKey>)
    requires Sorted(t, preferred, keys)
    ensures Sorted(t, preferred, Insert(t, preferred, key, keys))
    ensures multiset(Insert(t, preferred, key, keys)) == multiset([key]) + multiset(keys)
  {
    if keys == [] {
    } else if RankLeq(RankOf(t, preferred, key), RankOf(t, preferred, keys[0])) {
      forall j | 0 <= j < |keys|
        ensures RankLeq(RankOf(t, preferred, key), RankOf(t, preferred, keys[j]))
      {
        HeadLeast(t, preferred, keys, keys[j]);
        RankTransitive(RankOf(t, preferred, key), RankOf(t, preferred, keys[0]), RankOf(t, preferred, keys[j]));
      }
    } else {
      InsertSorted(t, preferred, key, keys[1..]);
      var rest := Insert(t, preferred, key, keys[1..]);
      assert keys == [keys[0]] + keys[1..];
      forall j | 0 <= j < |rest|
        ensures RankLeq(RankOf(t, preferred, keys[0]), RankOf(t, preferred, rest[j]))
      {
        assert rest[j] in multiset(rest);
        BytesTotal(RankOf(t, preferred, key).comment, RankOf(t, preferred, keys[0]).comment);
        if rest[j] in keys[1..] { HeadLeast(t, preferred, keys, rest[j]); }
      }
    }
  }

  lemma {:induction false} InsertStable(t: Text, preferred: nat, key: SshKey, keys: seq<SshKey>, rank: Rank)
    ensures Filter(Insert(t, preferred, key, keys), HasRank(t, preferred, rank))
         == Filter([key] + keys, HasRank(t, preferred, rank))
  {
    hide Filter;
    if keys != [] && !RankLeq(RankOf(t, preferred, key), RankOf(t, preferred, keys[0])) {
      var same := HasRank(t, preferred, rank);
      InsertStable(t, preferred, key, keys[1..], rank);
      BytesTotal(RankOf(t, preferred, key).comment, RankOf(t, preferred, key).comment);
      FilterCons(key, keys, same);
      FilterCons(key, keys[1..], same);
      FilterCons(keys[0], Insert(t, preferred, key, keys[1..]), same);
      assert keys == [keys[0]] + keys[1..];
      FilterCons(keys[0], keys[1..], same);
    }
  }

  lemma {:induction false} SortKeysStable(t: Text, preferred: nat, keys: seq<SshKey>)
    ensures StableSortOf(t, preferred, keys, SortKeys(t, preferred, keys))
  {
    hide RankLeq, Insert;
    if keys != [] {
      var rest := SortKeys(t, preferred, keys[1..]);
      SortKeysStable(t, preferred, keys[1..]);
      InsertSorted(t, preferred, keys[0], rest);
      assert keys == [keys[0]] + keys[1..];
      forall rank
        ensures Filter(keys, HasRank(t, preferred, rank))
             == Filter(SortKeys(t, preferred, keys), HasRank(t, preferred, rank))
      {
        InsertStable(t, preferred, keys[0], rest, rank);
        assert ([keys[0]] + rest)[1..] == rest;
      }
    }
  }

  // ----- the reply

  datatype Entry = Entry(blob: Bytes, comment: Bytes)

  function CommentBytes(t: Text, key: SshKey): Bytes {
    t.utf8(if key.comment.Some? then key.comment.value else FALLBACK_COMMENT)
  }

  function EntryOf(t: Text, key: SshKey): Entry {
    Entry(key.publicBlob, CommentBytes(t, key))
  }

  function Listing(t: Text, keys: seq<SshKey>): (r: seq<Entry>)
    ensures |r| == |keys|
  {
    if keys == [] then [] else Listing(t, keys[..|keys| - 1]) + [EntryOf(t, keys[|keys| - 1])]
  }

  function EntryBytes(e: Entry): Bytes {
    Str(e.blob) + Str(e.comment)
  }

  function EntriesBytes(entries: seq<Entry>): Bytes {
    if entries == [] then [] else EntryBytes(entries[0]) + EntriesBytes(entries[1..])
  }

  /** The keys an unlocked agent offers. */
  function Offered(t: Text, preferred: nat, keys: seq<SshKey>): seq<SshKey> {
    SortKeys(t, preferred, Filter(keys, IsEnabled()))
  }

  function Reply(entries: seq<Entry>): Bytes {
    [SSH2_AGENT_IDENTITIES_ANSWER] + U32(|entries|) + EntriesBytes(entries)
  }

  lemma {:induction false} EntriesAppend(entries: seq<Entry>, e: Entry)
    ensures EntriesBytes(entries + [e]) == EntriesBytes(entries) + EntryBytes(e)
  {
    hide EntryBytes;
    if entries == [] {
      assert [e][1..] == [];
      assert entries + [e] == [e];
    } else {
      assert (entries + [e])[1..] == entries[1..] + [e];
      EntriesAppend(entries[1..], e);
    }
  }

  /** `identities`: the answer of a locked agent is empty. */
  method AnswerIdentities(t: Text, locked: bool, preferred: nat, keys: seq<SshKey>) returns (response: Bytes)
    ensures response == Reply(if locked then [] else Listing(t, Offered(t, preferred, keys)))
  {
    hide EntriesBytes, Listing, Offered;
    if locked {
      EmptyEntries();
      return [SSH2_AGENT_IDENTITIES_ANSWER, 0, 0, 0, 0];
    }
    var offered := Offered(t, preferred, keys);
    response := [SSH2_AGENT_IDENTITIES_ANSWER];
    response := response + U32(|offered|);
    response := AppendEntries(t, offered, response);
  }

  /** The loop that appends blob and comment of every key. */
  method AppendEntries(t: Text, offered: seq<SshKey>, head: Bytes) returns (response: Bytes)
    ensures response == head + EntriesBytes(Listing(t, offered))
  {
    hide EntryBytes, EntriesBytes, U32, CommentBytes;
    EmptyEntries();
    response := head;
    var i := 0;
    while i < |offered|
      invariant 0 <= i <= |offered|
      invariant response == head + EntriesBytes(Listing(t, offered[..i]))
    {
      var key := offered[i];
      response := response + Str(key.publicBlob);
      response := response + Str(CommentBytes(t, key));
      EntryParts(EntryOf(t, key));
      assert offered[..i + 1][..i] == offered[..i];
      EntriesAppend(Listing(t, offered[..i]), EntryOf(t, key));
      i := i + 1;
    }
    assert offered[..i] == offered;
  }

  lemma EmptyEntries()
    ensures EntriesBytes([]) == []
  {
  }

  lemma EntryParts(e: Entry)
    ensures EntryBytes(e) == Str(e.blob) + Str(e.comment)
  {
  }

  // ----- a client reading the reply

  /** Reads `count` entries from `at`; nothing may follow the last one. */
  function ParseEntries(data: Bytes, at: nat, count: nat): Option<seq<Entry>>
    decreases count
  {
    if count == 0 then if at == |data| then Some([]) else None
    else
      var blob := ReadStr(data, at);
      if blob.None? then None
      else
        var comment := ReadStr(data, at + 4 + |blob.value|);
        if comment.None? then None
        else
          var rest := ParseEntries(data, at + 8 + |blob.value| + |comment.value|, count - 1);
          if rest.None? then None else Some([Entry(blob.value, comment.value)] + rest.value)
  }

  function ParseReply(data: Bytes): Option<seq<Entry>> {
    var count := ReadU32(data, 1);
    if count.None? || data[0] != SSH2_AGENT_IDENTITIES_ANSWER then None
    else ParseEntries(data, 5, count.value)
  }

  predicate Fits(e: Entry) {
    |e.blob| < U32_LIMIT && |e.comment| < U32_LIMIT
  }

  lemma {:induction false} EntriesRoundTrip(data: Bytes, at: nat, entries: seq<Entry>)
    requires forall e | e in entries :: Fits(e)
    requires at <= |data| && data[at..] == EntriesBytes(entries)
    ensures ParseEntries(data, at, |entries|) == Some(entries)
    decreases |entries|
  {
    hide EntryBytes, Fits, ReadStr;
    if entries != [] {
      var e, rest := entries[0], entries[1..];
      EntryReadBack(data, at, e, EntriesBytes(rest));
      EntriesRoundTrip(data, at + 8 + |e.blob| + |e.comment|, rest);
      assert entries == [e] + rest && |entries| - 1 == |rest|;
    }
  }

  lemma EntryReadBack(data: Bytes, at: nat, e: Entry, after: Bytes)
    requires Fits(e) && at <= |data| && data[at..] == EntryBytes(e) + after
    ensures ReadStr(data, at) == Some(e.blob)
    ensures ReadStr(data, at + 4 + |e.blob|) == Some(e.comment)
    ensures at + 8 + |e.blob| + |e.comment| <= |data|
    ensures data[at + 8 + |e.blob| + |e.comment|..] == after
  {
    hide Str, ReadStr;
    assert data[at..] == Str(e.blob) + (Str(e.comment) + after);
    StrAt(data, at, e.blob, Str(e.comment) + after);
    StrAt(data, at + 4 + |e.blob|, e.comment, after);
  }

  /** A reply is read back entry for entry and to its last byte. */
  lemma ReplyRoundTrip(entries: seq<Entry>)
    requires |entries| < U32_LIMIT && forall e | e in entries :: Fits(e)
    ensures ParseReply(Reply(entries)) == Some(entries)
  {
    hide EntriesBytes, ParseEntries;
    U32ReadBack([SSH2_AGENT_IDENTITIES_ANSWER], |entries|, EntriesBytes(entries));
    EntriesRoundTrip(Reply(entries), 5, entries);
  }

  /** No other entries have the same reply. */
  lemma ReplyInjective(a: seq<Entry>, b: seq<Entry>)
    requires |a| < U32_LIMIT && forall e | e in a :: Fits(e)
    requires |b| < U32_LIMIT && forall e | e in b :: Fits(e)
    requires Reply(a) == Reply(b)
    ensures a == b
  {
    ReplyRoundTrip(a);
    ReplyRoundTrip(b);
  }

  // ----- listing and signing agree

  /** `find_key`. */
  method FindKey(keys: seq<SshKey>, blob: Bytes) returns (r: Option<SshKey>)
    ensures r == Find(keys, EnabledBlob(blob))
  {
    var i := 0;
    while i < |keys|
      invariant 0 <= i <= |keys|
      invariant Find(keys, EnabledBlob(blob)) == Find(keys[i..], EnabledBlob(blob))
    {
      if keys[i].enabled && keys[i].publicBlob == blob { return Some(keys[i]); }
      i := i + 1;
    }
    return None;
  }

  lemma {:induction false} ListingAt(t: Text, keys: seq<SshKey>, i: nat)
    requires i < |keys|
    ensures Listing(t, keys)[i] == EntryOf(t, keys[i])
    decreases |keys|
  {
    if i < |keys| - 1 { ListingAt(t, keys[..|keys| - 1], i); }
  }

  predicate Lists(entries: seq<Entry>, blob: Bytes) {
    exists e | e in entries :: e.blob == blob
  }

  lemma ListsOffered(t: Text, offered: seq<SshKey>, blob: Bytes)
    ensures Lists(Listing(t, offered), blob) <==> exists key | key in offered :: key.publicBlob == blob
  {
    hide Listing;
    var listing := Listing(t, offered);
    if key :| key in offered && key.publicBlob == blob {
      var i :| 0 <= i < |offered| && offered[i] == key;
      ListingAt(t, offered, i);
      assert listing[i] in listing && listing[i].blob == blob;
    }
    if e :| e in listing && e.blob == blob {
      var i :| 0 <= i < |listing| && listing[i] == e;
      ListingAt(t, offered, i);
      assert offered[i] in offered && offered[i].publicBlob == blob;
    }
  }

  lemma OfferedExactly(t: Text, preferred: nat, keys: seq<SshKey>)
    ensures forall key :: key in Offered(t, preferred, keys) <==> key in keys && key.enabled
  {
    hide SortKeys, SameWithinRanks;
    var offered, enabled := Offered(t, preferred, keys), Filter(keys, IsEnabled());
    SortKeysStable(t, preferred, enabled);
    assert forall key :: key in offered <==> key in multiset(offered);
    assert forall key :: key in enabled <==> key in multiset(enabled);
    assert forall key :: key in enabled <==> key in keys && IsEnabled()(key);
  }

  /** The listed blobs are exactly those a sign request finds a key for. */
  lemma ListedExactlySignable(t: Text, preferred: nat, keys: seq<SshKey>, blob: Bytes)
    ensures Lists(Listing(t, Offered(t, preferred, keys)), blob) <==> Find(keys, EnabledBlob(blob)).Some?
  {
    hide Listing, Lists, Offered;
    ListsOffered(t, Offered(t, preferred, keys), blob);
    OfferedExactly(t, preferred, keys);
    var found := Find(keys, EnabledBlob(blob));
    if found.Some? {
      assert found.value in Offered(t, preferred, keys) && found.value.publicBlob == blob;
    } else {
      assert forall key | key in keys :: !EnabledBlob(blob)(key);
    }
  }

  /**
   * What a client reads from the answer of an unlocked agent: one entry per enabled key, in the only order
   * that puts the preferred backend first, then goes by lower-case comment, and keeps ties as they were.
   */
  lemma AnswerMeaning(t: Text, preferred: nat, keys: seq<SshKey>, sorted: seq<SshKey>)
    requires StableSortOf(t, preferred, Filter(keys, IsEnabled()), sorted)
    requires |sorted| < U32_LIMIT && forall e | e in Listing(t, sorted) :: Fits(e)
    ensures ParseReply(Reply(Listing(t, Offered(t, preferred, keys)))) == Some(Listing(t, sorted))
  {
    hide Listing, SortKeys, Sorted, ParseReply, Reply;
    var enabled := Filter(keys, IsEnabled());
    SortKeysStable(t, preferred, enabled);
    StableSortUnique(t, preferred, Offered(t, preferred, keys), sorted);
    ReplyRoundTrip(Listing(t, sorted));
  }

  /** The setting 0 stands for the Secure Enclave, 1 for FIDO2; any other prefers nothing. */
  predicate Prefers(preferred: nat, backend: KeyBackend) {
    (preferred == 0 && backend == SecureEnclave) || (preferred == 1 && backend == Fido2)
  }

  /** Every key of the preferred backend is listed before every other key. */
  lemma PreferredFirst(t: Text, preferred: nat, keys: seq<SshKey>, i: nat, j: nat)
    requires i < |Offered(t, preferred, keys)| && j < |Offered(t, preferred, keys)|
    requires Prefers(preferred, Offered(t, preferred, keys)[i].backend)
    requires !Prefers(preferred, Offered(t, preferred, keys)[j].backend)
    ensures i < j
  {
    hide SortKeys;
    SortKeysStable(t, preferred, Filter(keys, IsEnabled()));
  }

  /** The order of texts: a prefix comes first, otherwise the first byte that differs decides. */
  ghost predicate TextOrder(a: Bytes, b: Bytes) {
    a <= b || exists k :: DiffersAt(a, b, k)
  }

  predicate DiffersAt(a: Bytes, b: Bytes, k: int) {
    0 <= k < |a| && k < |b| && a[..k] == b[..k] && a[k] < b[k]
  }

  lemma {:induction false} BytesLeqMeans(a: Bytes, b: Bytes)
    ensures BytesLeq(a, b) <==> TextOrder(a, b)
  {
    if a == [] || b == [] {
    } else if a[0] != b[0] {
      if a[0] < b[0] { assert DiffersAt(a, b, 0); }
      if k :| DiffersAt(a, b, k) {
        if k > 0 { assert a[..k][0] == b[..k][0]; }
      }
    } else {
      var x, y := a[1..], b[1..];
      BytesLeqMeans(x, y);
      assert a == [a[0]] + x && b == [b[0]] + y;
      assert a <= b <==> x <= y;
      if k :| DiffersAt(x, y, k) {
        assert a[..k + 1] == [a[0]] + x[..k] && b[..k + 1] == [b[0]] + y[..k];
        assert DiffersAt(a, b, k + 1);
      }
      if k :| DiffersAt(a, b, k) {
        assert k > 0;
        assert x[..k - 1] == a[..k][1..] && y[..k - 1] == b[..k][1..];
        assert DiffersAt(x, y, k - 1);
      }
    }
  }

  function LowerComment(t: Text, key: SshKey): Bytes {
    t.lower(match key.comment case Some(comment) => comment case None => "")
  }

  /** Among the preferred keys, and among the others, the lower-case comments are in order. */
  lemma CommentsInOrder(t: Text, preferred: nat, keys: seq<SshKey>, i: nat, j: nat)
    requires i < j < |Offered(t, preferred, keys)|
    requires var offered := Offered(t, preferred, keys);
             Prefers(preferred, offered[i].backend) == Prefers(preferred, offered[j].backend)
    ensures var offered := Offered(t, preferred, keys);
            TextOrder(LowerComment(t, offered[i]), LowerComment(t, offered[j]))
  {
    hide SortKeys, TextOrder, BytesLeq;
    SortKeysStable(t, preferred, Filter(keys, IsEnabled()));
    var offered := Offered(t, preferred, keys);
    assert RankLeq(RankOf(t, preferred, offered[i]), RankOf(t, preferred, offered[j]));
    BytesLeqMeans(LowerComment(t, offered[i]), LowerComment(t, offered[j]));
  }

  /** The entry at each place is the blob of the key there and its comment, or the fallback if it has none. */
  lemma ListedAt(t: Text, offered: seq<SshKey>, i: nat)
    requires i < |offered|
    ensures Listing(t, offered)[i].blob == offered[i].publicBlob
    ensures offered[i].comment.Some? ==> Listing(t, offered)[i].comment == t.utf8(offered[i].comment.value)
    ensures offered[i].comment.None? ==> Listing(t, offered)[i].comment == t.utf8(FALLBACK_COMMENT)
  {
    hide FALLBACK_COMMENT, Listing;
    ListingAt(t, offered, i);
  }
}
