/**
 * The sweep the bot runs before every repost (window of 50) and at startup
 * (window of 100): it deletes the stored sticky message by id, then fetches
 * the newest messages of the channel, whoever wrote them, keeps the bot's own,
 * and deletes those the sticky test accepts. A delete that fails is skipped
 * and not counted. Channel history is a sequence, newest message first.
 */
module Reconcile {
  import opened Wrappers
  import opened Sticky

  const RefreshWindow: nat := 50
  const StartupWindow: nat := 100

  /** The newest `limit` messages: what `channel.messages.fetch({ limit })` returns. */
  function Window(h: seq<Message>, limit: nat): seq<Message> {
    h[..Min(limit, |h|)]
  }

  /** A message the scan tries to delete: the bot's own, and sticky-like for this template. */
  predicate Doomed(m: Message, botId: UserId, template: string) {
    m.authorId == botId && IsStickyLike(m, template)
  }

  /** A message the scan removes: doomed, and its delete does not fail. */
  predicate Removed(m: Message, botId: UserId, template: string, fails: set<MessageId>) {
    Doomed(m, botId, template) && m.id !in fails
  }

  /** The messages of `w` the scan tries to delete, in order. */
  function Matches(w: seq<Message>, botId: UserId, template: string): seq<Message>
    decreases |w|
  {
    if w == [] then []
    else Matches(w[..|w| - 1], botId, template) + (if Doomed(w[|w| - 1], botId, template) then [w[|w| - 1]] else [])
  }

  /** The messages of `w` the scan does delete, in order. */
  function Deleted(w: seq<Message>, botId: UserId, template: string, fails: set<MessageId>): seq<Message>
    decreases |w|
  {
    if w == [] then []
    else Deleted(w[..|w| - 1], botId, template, fails)
         + (if Removed(w[|w| - 1], botId, template, fails) then [w[|w| - 1]] else [])
  }

  /** The messages of `w` still there after the scan, in order. */
  function Survivors(w: seq<Message>, botId: UserId, template: string, fails: set<MessageId>): seq<Message>
    decreases |w|
  {
    if w == [] then []
    else Survivors(w[..|w| - 1], botId, template, fails)
         + (if Removed(w[|w| - 1], botId, template, fails) then [] else [w[|w| - 1]])
  }

  /** The channel's history after a scan with the given window. */
  function Reconciled(h: seq<Message>, limit: nat, botId: UserId, template: string, fails: set<MessageId>): seq<Message> {
    Survivors(Window(h, limit), botId, template, fails) + h[Min(limit, |h|)..]
  }

  /** Every message with id `id` taken out. */
  function RemoveId(h: seq<Message>, id: MessageId): (r: seq<Message>)
    ensures forall m :: m in r <==> m in h && m.id != id
    ensures |r| <= |h|
    decreases |h|
  {
    if h == [] then []
    else (if h[0].id == id then [] else [h[0]]) + RemoveId(h[1..], id)
  }

  /**
   * Deleting the stored sticky message: only when an id is stored (and not
   * empty), and only when fetching and deleting it succeed. A message that is
   * no longer there fails the fetch, which `RemoveId` reflects by changing
   * nothing.
   */
  function DeleteStored(h: seq<Message>, messageId: Option<MessageId>, fails: set<MessageId>): (r: seq<Message>)
    ensures forall m :: m in r ==> m in h
    ensures |r| <= |h|
  {
    if messageId.Some? && messageId.value != [] && messageId.value !in fails then RemoveId(h, messageId.value)
    else h
  }

  /**
   * The scan loop: walks the window, skips other authors' messages, tries to
   * delete each sticky-like one and counts the deletes that succeed.
   */
  method Scan(h: seq<Message>, limit: nat, botId: UserId, template: string, fails: set<MessageId>)
    returns (after: seq<Message>, deletedCount: nat)
    ensures after == Reconciled(h, limit, botId, template, fails)
    ensures deletedCount == |Deleted(Window(h, limit), botId, template, fails)|
  {
    var n := Min(limit, |h|);
    var kept: seq<Message> := [];
    deletedCount := 0;
    var i := 0;
    while i < n
      invariant 0 <= i <= n
      invariant kept == Survivors(h[..i], botId, template, fails)
      invariant deletedCount == |Deleted(h[..i], botId, template, fails)|
    {
      var m := h[i];
      assert h[..i + 1][..i] == h[..i];
      if m.authorId == botId && IsStickyLike(m, template) {
        if m.id !in fails {
          deletedCount := deletedCount + 1;
        } else {
          kept := kept + [m];
        }
      } else {
        kept := kept + [m];
      }
      i := i + 1;
    }
    after := kept + h[n..];
  }

  /** Every message is either deleted or survives, in the same order. */
  lemma {:induction false} SplitWindow(w: seq<Message>, botId: UserId, template: string, fails: set<MessageId>)
    ensures multiset(Survivors(w, botId, template, fails)) + multiset(Deleted(w, botId, template, fails)) == multiset(w)
    ensures |Deleted(w, botId, template, fails)| <= |Matches(w, botId, template)|
    ensures forall m :: m in Deleted(w, botId, template, fails) ==> m in w && Removed(m, botId, template, fails)
    ensures forall m :: m in Survivors(w, botId, template, fails) ==> m in w && !Removed(m, botId, template, fails)
    decreases |w|
  {
    if w != [] {
      var init := w[..|w| - 1];
      SplitWindow(init, botId, template, fails);
      assert w == init + [w[|w| - 1]];
    }
  }

  /**
   * The scan deletes only the bot's sticky-like messages inside the window
   * whose delete succeeds; everything else, including all history beyond the
   * window, is still there.
   */
  lemma ScanDeletesOnly(h: seq<Message>, limit: nat, botId: UserId, template: string, fails: set<MessageId>)
    ensures var w := Window(h, limit);
            multiset(Reconciled(h, limit, botId, template, fails)) + multiset(Deleted(w, botId, template, fails))
            == multiset(h)
    ensures forall m :: m in Deleted(Window(h, limit), botId, template, fails) ==>
              m in Window(h, limit) && m.authorId == botId && IsStickyLike(m, template) && m.id !in fails
    ensures forall m :: m in h[Min(limit, |h|)..] ==> m in Reconciled(h, limit, botId, template, fails)
    ensures |Deleted(Window(h, limit), botId, template, fails)| <= |Matches(Window(h, limit), botId, template)|
  {
    var n := Min(limit, |h|);
    SplitWindow(h[..n], botId, template, fails);
    assert h == h[..n] + h[n..];
  }

  /** A window without removable messages comes through unchanged. */
  lemma {:induction false} SurvivorsNone(w: seq<Message>, botId: UserId, template: string, fails: set<MessageId>)
    requires forall m :: m in w ==> !Removed(m, botId, template, fails)
    ensures Survivors(w, botId, template, fails) == w
    decreases |w|
  {
    if w != [] {
      SurvivorsNone(w[..|w| - 1], botId, template, fails);
      assert w == w[..|w| - 1] + [w[|w| - 1]];
    }
  }

  /**
   * When the whole history fits in the window, a second scan with the same
   * outcomes changes nothing more.
   */
  lemma ScanIdempotentWithinWindow(h: seq<Message>, limit: nat, botId: UserId, template: string, fails: set<MessageId>)
    requires |h| <= limit
    ensures var once := Reconciled(h, limit, botId, template, fails);
            Reconciled(once, limit, botId, template, fails) == once
  {
    SplitWindow(h, botId, template, fails);
    var once := Reconciled(h, limit, botId, template, fails);
    assert Window(h, limit) == h;
    assert once == Survivors(h, botId, template, fails);
    assert |once| <= |h| by {
      assert |multiset(once)| <= |multiset(h)|;
    }
    assert Window(once, limit) == once;
    SurvivorsNone(once, botId, template, fails);
  }

  /** `n` messages from another user, oldest last, the `i`-th with an id of `i + 1` letters. */
  function Chatter(n: nat): (r: seq<Message>)
    ensures |r| == n
    ensures forall i :: 0 <= i < n ==> r[i].authorId == "user" && |r[i].id| == i + 1
  {
    if n == 0 then [] else Chatter(n - 1) + [Message(seq(n, _ => 'u'), "user", "hello", [])]
  }

  /**
   * Beyond the window a second scan can delete more: after the newest sticky
   * post goes, an older one slides into the window. Every message has its
   * own id.
   */
  lemma ScanNotIdempotentBeyondWindow(botId: UserId)
    requires botId != "user"
    ensures var text := "hi" + "\n\n*" + DefaultFooter + "*";
            var users := Chatter(RefreshWindow - 1);
            var h := [Message("p", botId, text, [])] + users + [Message("q", botId, text, [])];
            var once := Reconciled(h, RefreshWindow, botId, "", {});
            Reconciled(once, RefreshWindow, botId, "", {}) != once
  {
    var text := "hi" + "\n\n*" + DefaultFooter + "*";
    var newest, oldest := Message("p", botId, text, []), Message("q", botId, text, []);
    var users := Chatter(RefreshWindow - 1);
    var h := [newest] + users + [oldest];
    DefaultFooterMarks();
    ContainsAfter("hi", "\n\n*" + DefaultFooter + "*", "*" + Pin);
    assert text == "hi" + ("\n\n*" + DefaultFooter + "*");
    assert Removed(newest, botId, "", {}) && Removed(oldest, botId, "", {});
    forall m | m in users ensures !Removed(m, botId, "", {}) {
      var i :| 0 <= i < |users| && users[i] == m;
    }
    var w := Window(h, RefreshWindow);
    assert w == [newest] + users;
    SurvivorsNone(users, botId, "", {});
    SurvivorsCons(newest, users, botId, "", {});
    var once := Reconciled(h, RefreshWindow, botId, "", {});
    assert once == users + [oldest];
    assert Window(once, RefreshWindow) == once;
    assert Survivors(users + [oldest], botId, "", {}) == users by {
      assert (users + [oldest])[..|users + [oldest]| - 1] == users;
    }
  }

  /** A removable message in front of a window drops out of the survivors. */
  lemma {:induction false} SurvivorsCons(m: Message, w: seq<Message>, botId: UserId, template: string, fails: set<MessageId>)
    ensures Survivors([m] + w, botId, template, fails)
         == (if Removed(m, botId, template, fails) then [] else [m]) + Survivors(w, botId, template, fails)
    decreases |w|
  {
    if w != [] {
      var init := w[..|w| - 1];
      SurvivorsCons(m, init, botId, template, fails);
      assert ([m] + w)[..|[m] + w| - 1] == [m] + init;
    }
  }

  /** Deleting the stored message removes exactly that message, and nothing when it fails. */
  lemma DeleteStoredEffect(h: seq<Message>, messageId: Option<MessageId>, fails: set<MessageId>)
    ensures messageId.None? || messageId == Some([]) || (messageId.Some? && messageId.value in fails)
            ==> DeleteStored(h, messageId, fails) == h
    ensures messageId.Some? && messageId.value != [] && messageId.value !in fails ==>
            forall m :: m in DeleteStored(h, messageId, fails) <==> m in h && m.id != messageId.value
  {
  }
}
