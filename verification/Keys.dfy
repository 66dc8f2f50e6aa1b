/** The keys of the system: idempotency keys of mails, lock keys of scan batches, cache keys. */
module Keys {
  import opened Messages
  import opened Strings

  // ---------- Idempotency keys ----------

  function ReleaseKey(email: string, repo: string, tag: string): string {
    "release:" + email + ":" + repo + ":" + tag
  }

  function ConfirmationKey(email: string, repo: string, confirmToken: string): string {
    "confirmation:" + email + ":" + repo + ":" + confirmToken
  }

  predicate ColonFree(s: string) {
    Free(s, ':')
  }

  lemma TripleUnique(p: string, e: string, r: string, t: string, p': string, e': string, r': string, t': string)
    requires ColonFree(p) && ColonFree(p') && ColonFree(e) && ColonFree(e') && ColonFree(r) && ColonFree(r')
    requires p + ":" + e + ":" + r + ":" + t == p' + ":" + e' + ":" + r' + ":" + t'
    ensures p == p' && e == e' && r == r' && t == t'
  {
    assert p + ":" + e + ":" + r + ":" + t == p + [':'] + (e + ":" + r + ":" + t);
    assert p' + ":" + e' + ":" + r' + ":" + t' == p' + [':'] + (e' + ":" + r' + ":" + t');
    CutUnique(p, p', e + ":" + r + ":" + t, e' + ":" + r' + ":" + t', ':');
    assert e + ":" + r + ":" + t == e + [':'] + (r + ":" + t);
    assert e' + ":" + r' + ":" + t' == e' + [':'] + (r' + ":" + t');
    CutUnique(e, e', r + ":" + t, r' + ":" + t', ':');
    CutUnique(r, r', t, t', ':');
  }

  /** Release keys determine the mail, for any tag. */
  lemma ReleaseKeyInjective(e: string, r: string, t: string, e': string, r': string, t': string)
    requires ColonFree(e) && ColonFree(e') && ColonFree(r) && ColonFree(r')
    requires ReleaseKey(e, r, t) == ReleaseKey(e', r', t')
    ensures e == e' && r == r' && t == t'
  {
    var p := "release";
    assert ReleaseKey(e, r, t) == p + ":" + e + ":" + r + ":" + t;
    assert ReleaseKey(e', r', t') == p + ":" + e' + ":" + r' + ":" + t';
    TripleUnique(p, e, r, t, p, e', r', t');
  }

  /** Confirmation keys determine the mail, for any token. */
  lemma ConfirmationKeyInjective(e: string, r: string, t: string, e': string, r': string, t': string)
    requires ColonFree(e) && ColonFree(e') && ColonFree(r) && ColonFree(r')
    requires ConfirmationKey(e, r, t) == ConfirmationKey(e', r', t')
    ensures e == e' && r == r' && t == t'
  {
    var p := "confirmation";
    assert ConfirmationKey(e, r, t) == p + ":" + e + ":" + r + ":" + t;
    assert ConfirmationKey(e', r', t') == p + ":" + e' + ":" + r' + ":" + t';
    TripleUnique(p, e, r, t, p, e', r', t');
  }

  /** The two kinds of keys never collide, whatever their parts. */
  lemma KindsDisjoint(e: string, r: string, t: string, e': string, r': string, t': string)
    ensures ReleaseKey(e, r, t) != ConfirmationKey(e', r', t')
  {
    assert ReleaseKey(e, r, t)[0] == 'r';
    assert ConfirmationKey(e', r', t')[0] == 'c';
  }

  /** Without the restriction on names two different mails share a key. */
  lemma ColonsCollide()
    ensures ReleaseKey("e", "o/r:1", "2") == ReleaseKey("e", "o/r", "1:2")
  {
  }

  /** An order whose key is the one its producer builds, for names without colons. */
  predicate WellKeyed(m: EmailMessage) {
    && ColonFree(m.email) && ColonFree(m.repo)
    && match m
       case ReleaseMail(key, email, repo, tag, _) => key == ReleaseKey(email, repo, tag)
       case ConfirmationMail(key, email, repo, confirmToken, _) => key == ConfirmationKey(email, repo, confirmToken)
  }

  /** The same mail to the same reader: what the recipient would call a duplicate. */
  predicate SameMail(a: EmailMessage, b: EmailMessage) {
    && a.email == b.email && a.repo == b.repo
    && (a.ReleaseMail? <==> b.ReleaseMail?)
    && (if a.ReleaseMail? && b.ReleaseMail? then a.tag == b.tag
        else a.ConfirmationMail? && b.ConfirmationMail? && a.confirmToken == b.confirmToken)
  }

  /** Well-keyed orders share a key exactly when they ask for the same mail. */
  lemma SameKeyIffSameMail(a: EmailMessage, b: EmailMessage)
    requires WellKeyed(a) && WellKeyed(b)
    ensures a.key == b.key <==> SameMail(a, b)
  {
    if a.key == b.key {
      match (a, b)
      case (ReleaseMail(_, e, r, t, _), ReleaseMail(_, e', r', t', _)) => ReleaseKeyInjective(e, r, t, e', r', t');
      case (ConfirmationMail(_, e, r, t, _), ConfirmationMail(_, e', r', t', _)) => ConfirmationKeyInjective(e, r, t, e', r', t');
      case (ReleaseMail(_, e, r, t, _), ConfirmationMail(_, e', r', t', _)) => KindsDisjoint(e, r, t, e', r', t');
      case (ConfirmationMail(_, e', r', t', _), ReleaseMail(_, e, r, t, _)) => KindsDisjoint(e, r, t, e', r', t');
    }
  }

  // ---------- Repository names ----------

  predicate OwnerChar(c: char) {
    'a' <= c <= 'z' || 'A' <= c <= 'Z' || '0' <= c <= '9' || c == '-'
  }

  predicate NameChar(c: char) {
    OwnerChar(c) || c == '_' || c == '.'
  }

  /** The pattern owner/name of the subscribe request. */
  predicate RepoName(s: string) {
    exists k :: 0 < k < |s| - 1 && s[k] == '/' && (forall i :: 0 <= i < k ==> OwnerChar(s[i]))
                && (forall i :: k < i < |s| ==> NameChar(s[i]))
  }

  lemma RepoNameShape(s: string)
    requires RepoName(s)
    ensures s != "" && Free(s, ',') && ColonFree(s)
  {
    assert forall i :: 0 <= i < |s| ==> NameChar(s[i]) || s[i] == '/';
  }

  // ---------- Keys of batches ----------

  /** The stable form of a batch: its names sorted and joined. */
  function Stable(batch: seq<string>): string {
    Join(Sort(batch))
  }

  function LockKey(batch: seq<string>): string {
    "lock:scan:" + Base64(Bytes(Stable(batch)))
  }

  function CacheKey(batch: seq<string>): string {
    "cache:github:releases:" + Base64(Bytes(Stable(batch)))
  }

  lemma SortKeepsNames(batch: seq<string>)
    requires CommaFree(batch)
    ensures CommaFree(Sort(batch))
  {
    var sorted := Sort(batch);
    SortPermutes(batch);
    forall i | 0 <= i < |sorted| ensures sorted[i] != "" && Free(sorted[i], ',') {
      InMultiset(sorted, sorted[i]);
      InMultiset(batch, sorted[i]);
    }
  }

  /** The encoded stable form tells batches of non-empty comma-free names apart up to permutation, through
      sort, join, UTF-8 and base64. */
  lemma StableFormIffPermutation(a: seq<string>, b: seq<string>)
    requires CommaFree(a) && CommaFree(b)
    ensures Base64(Bytes(Stable(a))) == Base64(Bytes(Stable(b))) <==> multiset(a) == multiset(b)
  {
    SortCanonical(a, b);
    if Base64(Bytes(Stable(a))) == Base64(Bytes(Stable(b))) {
      Base64RoundTrip(Bytes(Stable(a)));
      Base64RoundTrip(Bytes(Stable(b)));
      BytesInjective(Stable(a), Stable(b));
      SortKeepsNames(a);
      SortKeepsNames(b);
      JoinInjective(Sort(a), Sort(b));
    }
  }

  /** Two batches share a lock key, and a cache key, exactly when one is a permutation of the other. */
  lemma BatchKeysIffPermutation(a: seq<string>, b: seq<string>)
    requires CommaFree(a) && CommaFree(b)
    ensures LockKey(a) == LockKey(b) <==> multiset(a) == multiset(b)
    ensures CacheKey(a) == CacheKey(b) <==> multiset(a) == multiset(b)
  {
    StableFormIffPermutation(a, b);
    var x, y := Base64(Bytes(Stable(a))), Base64(Bytes(Stable(b)));
    assert ("lock:scan:" + x)[|"lock:scan:"|..] == x && ("lock:scan:" + y)[|"lock:scan:"|..] == y;
    var c := "cache:github:releases:";
    assert (c + x)[|c|..] == x && (c + y)[|c|..] == y;
  }

  /** A comma in a name makes two different batches share their keys. */
  lemma CommasCollide()
    ensures LockKey(["a,b"]) == LockKey(["a", "b"]) && multiset(["a,b"]) != multiset(["a", "b"])
  {
    assert Le("a", "b");
    assert Sort(["a", "b"]) == ["a", "b"];
    assert Stable(["a,b"]) == "a,b" && Stable(["a", "b"]) == "a,b";
    assert multiset(["a,b"])["a"] == 0 && multiset(["a", "b"])["a"] == 1;
  }
}
