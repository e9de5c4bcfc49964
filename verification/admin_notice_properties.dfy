/**
  Properties of the notice lifecycle that relate several calls: `add` followed by
  page loads, page loads one after another, and what the query-flag handlers print.
*/
module AdminNoticeProperties {
  import opened Wrappers
  import opened NoticeFormat
  import opened TransientStore
  import opened AdminNotice

  /**
    The transient step of successive page loads at the instants `times`, with no
    `add` in between: what is left in the store and everything printed, in order.
  */
  function RenderedEach(s: Store<Notice>, times: seq<int>): (r: Step)
    requires WellTyped(s)
    ensures WellTyped(r.store)
    ensures |r.echoed| <= |times|
    decreases |times|
  {
    if times == [] then Step(s, [])
    else
      var first := Rendered(s, times[0]);
      var rest := RenderedEach(first.store, times[1..]);
      Step(rest.store, first.echoed + rest.echoed)
  }

  lemma SlotKeysDiffer(l: Level, k: Level)
    ensures SlotKey(l) == SlotKey(k) <==> l == k
    ensures SlotKey(l) != StrayErrorKey
  {
  }

  /**
    A pending error notice is never consumed: every later page load prints the
    same error fragment again, the only key ever deleted is `lmfwc_error`, and all
    four slots, the error slot included, keep what they held, so the success,
    warning and info notices stay shadowed.
  */
  lemma {:induction false} ErrorNoticeNeverConsumed(s: Store<Notice>, times: seq<int>)
    requires WellTyped(s)
    requires forall i :: 0 <= i < |times| ==> Pending(s, Error, times[i])
    ensures |RenderedEach(s, times).echoed| == |times|
    ensures forall i :: 0 <= i < |times| ==>
      RenderedEach(s, times).echoed[i] == Fragment(Error, PendingText(s, Error, times[i]))
    ensures times != [] ==> RenderedEach(s, times).store == Delete(s, StrayErrorKey)
    ensures forall l, t :: Get(RenderedEach(s, times).store, SlotKey(l), t) == Get(s, SlotKey(l), t)
    decreases |times|
  {
    if times != [] {
      var first := Rendered(s, times[0]);
      assert FirstPending(s, Error, times[0]);
      var s1 := Delete(s, StrayErrorKey);
      assert first.store == s1;
      forall l, t
        ensures Get(s1, SlotKey(l), t) == Get(s, SlotKey(l), t)
      {
        SlotKeysDiffer(l, l);
      }
      forall i | 0 <= i < |times[1..]|
        ensures Pending(s1, Error, times[1..][i])
      {
        assert times[1..][i] == times[i + 1];
      }
      ErrorNoticeNeverConsumed(s1, times[1..]);
      var rest := RenderedEach(s1, times[1..]);
      assert RenderedEach(s, times).echoed == first.echoed + rest.echoed;
      forall i | 0 <= i < |times|
        ensures RenderedEach(s, times).echoed[i] == Fragment(Error, PendingText(s, Error, times[i]))
      {
        if i > 0 {
          assert times[1..][i - 1] == times[i];
          assert PendingText(s1, Error, times[i]) == PendingText(s, Error, times[i]);
        }
      }
      if times[1..] != [] {
        assert Delete(s1, StrayErrorKey) == s1;
      }
    }
  }

  /** The fragment a slot would print, if it is pending. */
  function Shown(s: Store<Notice>, l: Level, now: int): seq<string>
  {
    if Pending(s, l, now) then [Fragment(l, PendingText(s, l, now))] else []
  }

  /** The success, warning and info notices still to be printed, in the order they will be. */
  function Waiting(s: Store<Notice>, now: int): seq<string>
  {
    Shown(s, Success, now) + Shown(s, Warning, now) + Shown(s, Info, now)
  }

  /** Deleting a slot hides that slot and leaves what every other slot would print. */
  lemma DeleteKeepsOtherSlots(s: Store<Notice>, l: Level, now: int)
    ensures !Pending(Delete(s, SlotKey(l)), l, now)
    ensures forall k :: k != l ==> Pending(Delete(s, SlotKey(l)), k, now) == Pending(s, k, now)
    ensures forall k :: k != l ==> Shown(Delete(s, SlotKey(l)), k, now) == Shown(s, k, now)
  {
    forall k | k != l
      ensures Get(Delete(s, SlotKey(l)), SlotKey(k), now) == Get(s, SlotKey(k), now)
    {
      SlotKeysDiffer(l, k);
    }
  }

  /**
    Without a pending error, one page load prints the first waiting notice and
    removes it from the waiting ones, and no error becomes pending.
  */
  lemma RenderedTakesFirstWaiting(s: Store<Notice>, now: int)
    requires WellTyped(s)
    requires !Pending(s, Error, now)
    ensures !Pending(Rendered(s, now).store, Error, now)
    ensures Rendered(s, now).echoed + Waiting(Rendered(s, now).store, now) == Waiting(s, now)
    ensures Waiting(s, now) != [] ==> |Waiting(Rendered(s, now).store, now)| < |Waiting(s, now)|
  {
    var r := Rendered(s, now);
    if Pending(s, Success, now) {
      assert FirstPending(s, Success, now);
      DeleteKeepsOtherSlots(s, Success, now);
    } else if Pending(s, Warning, now) {
      assert FirstPending(s, Warning, now);
      DeleteKeepsOtherSlots(s, Warning, now);
    } else if Pending(s, Info, now) {
      assert FirstPending(s, Info, now);
      DeleteKeepsOtherSlots(s, Info, now);
    }
  }

  /** Three page loads at the same instant, unfolded into three `transients` steps. */
  lemma RenderedThrice(s: Store<Notice>, now: int)
    requires WellTyped(s)
    ensures var r1 := Rendered(s, now);
            var r2 := Rendered(r1.store, now);
            var r3 := Rendered(r2.store, now);
            RenderedEach(s, [now, now, now]) == Step(r3.store, r1.echoed + (r2.echoed + r3.echoed))
  {
    var r1 := Rendered(s, now);
    var r2 := Rendered(r1.store, now);
    var r3 := Rendered(r2.store, now);
    assert [now, now, now][1..] == [now, now];
    assert [now, now][1..] == [now];
    assert RenderedEach(r3.store, []) == Step(r3.store, []);
    assert RenderedEach(r2.store, [now]) == Step(r3.store, r3.echoed);
    assert RenderedEach(r1.store, [now, now]) == Step(r3.store, r2.echoed + r3.echoed);
  }

  /**
    With no error notice pending, three page loads at the same instant print the
    pending success, warning and info notices, each once and in that order, and
    leave no slot pending, so a further page load prints nothing.
  */
  lemma NoticesDrainInPriorityOrder(s: Store<Notice>, now: int)
    requires WellTyped(s)
    requires !Pending(s, Error, now)
    ensures RenderedEach(s, [now, now, now]).echoed == Waiting(s, now)
    ensures forall l :: !Pending(RenderedEach(s, [now, now, now]).store, l, now)
    ensures Rendered(RenderedEach(s, [now, now, now]).store, now).echoed == []
  {
    var r1 := Rendered(s, now);
    RenderedTakesFirstWaiting(s, now);
    var r2 := Rendered(r1.store, now);
    RenderedTakesFirstWaiting(r1.store, now);
    var r3 := Rendered(r2.store, now);
    RenderedTakesFirstWaiting(r2.store, now);
    RenderedThrice(s, now);
    assert Waiting(r3.store, now) == [];
    assert r1.echoed + (r2.echoed + r3.echoed) == Waiting(s, now);
    assert Shown(r3.store, Success, now) == [] && Shown(r3.store, Warning, now) == [] && Shown(r3.store, Info, now) == [];
  }

  /**
    `add` of a truthy notice that nothing of higher priority shadows prints
    exactly that notice on the next page load within its duration, and the
    printed fragment reads back as the level and message that were added. A
    success, warning or info notice is then gone; an error notice is still there.
  */
  lemma AddedNoticeIsShown(s: Store<Notice>, now: int, l: Level, message: string,
                           code: int, duration: int, t: int)
    requires WellTyped(s)
    requires Truthy(Stored(l, message, code))
    requires now <= t < now + duration
    requires forall k :: Rank(k) < Rank(l) ==> !Pending(s, k, t)
    ensures Rendered(Added(s, now, LevelName(l), message, code, duration), t).echoed == [Fragment(l, message)]
    ensures Decode(Fragment(l, message)) == Some((l, message))
    ensures l != Error ==>
      forall t' :: Get(Rendered(Added(s, now, LevelName(l), message, code, duration), t).store, SlotKey(l), t') == None
    ensures l == Error ==>
      Get(Rendered(Added(s, now, LevelName(l), message, code, duration), t).store, SlotKey(l), t)
      == Some(ErrorNotice(code, message))
  {
    var s1 := Added(s, now, LevelName(l), message, code, duration);
    assert ParseLevel(LevelName(l)) == Some(l);
    forall k | Rank(k) < Rank(l)
      ensures !Pending(s1, k, t)
    {
      SlotKeysDiffer(l, k);
      assert Get(s1, SlotKey(k), t) == Get(s, SlotKey(k), t);
    }
    assert FirstPending(s1, l, t);
    SlotKeysDiffer(l, l);
    DecodeFragment(l, message);
  }

  /**
    A success, warning or info notice whose message is `""` or `"0"` is stored
    but never printed, and `transients` never deletes it either: it stays in its
    slot until it expires.
  */
  lemma FalsyNoticeStaysSilent(s: Store<Notice>, now: int, l: Level, message: string,
                               duration: int, t: int)
    requires WellTyped(s)
    requires l != Error
    requires message == "" || message == "0"
    ensures !Pending(Added(s, now, LevelName(l), message, duration := duration), l, t)
    ensures forall t' :: Get(Rendered(Added(s, now, LevelName(l), message, duration := duration), t).store, SlotKey(l), t')
                      == Get(Added(s, now, LevelName(l), message, duration := duration), SlotKey(l), t')
  {
    var s1 := Added(s, now, LevelName(l), message, duration := duration);
    assert ParseLevel(LevelName(l)) == Some(l);
    SlotKeysDiffer(l, l);
    forall k | k != l
      ensures SlotKey(k) != SlotKey(l)
    {
      SlotKeysDiffer(l, k);
    }
  }

  /**
    A notice whose duration has elapsed before the next page load is not
    printed: that page load prints what it would print had the notice never
    been added to an empty slot.
  */
  lemma ExpiredNoticeIsNotShown(s: Store<Notice>, now: int, l: Level, message: string,
                                code: int, duration: int, t: int)
    requires WellTyped(s)
    requires now + duration <= t
    ensures WellTyped(Delete(s, SlotKey(l)))
    ensures Rendered(Added(s, now, LevelName(l), message, code, duration), t).echoed
         == Rendered(Delete(s, SlotKey(l)), t).echoed
  {
    var s1 := Added(s, now, LevelName(l), message, code, duration);
    var s2 := Delete(s, SlotKey(l));
    assert ParseLevel(LevelName(l)) == Some(l);
    forall k
      ensures Get(s1, SlotKey(k), t) == Get(s2, SlotKey(k), t)
    {
      SlotKeysDiffer(l, k);
    }
    assert forall k :: Pending(s1, k, t) == Pending(s2, k, t);
  }

  /** `add` with only a level and a message stores the code -1 and lasts 60 seconds. */
  lemma AddDefaults(s: Store<Notice>, now: int, message: string)
    ensures forall t :: Get(Added(s, now, "error", message), SlotKey(Error), t)
                     == if t < now + 60 then Some(ErrorNotice(-1, message)) else None
  {
    assert ParseLevel("error") == Some(Error);
  }

  /**
    The scenario of adding an error "Disk full" with code 500: the next page
    load prints the dismissible error fragment, and so does the one after it,
    since the error notice is never consumed.
  */
  lemma DiskFullIsShownOnEveryPage(s: Store<Notice>, now: int)
    requires WellTyped(s)
    ensures RenderedEach(Added(s, now, "error", "Disk full", 500), [now, now + 1]).echoed
         == [Fragment(Error, "Disk full"), Fragment(Error, "Disk full")]
    ensures Decode(Fragment(Error, "Disk full")) == Some((Error, "Disk full"))
  {
    var s1 := Added(s, now, "error", "Disk full", 500);
    assert ParseLevel("error") == Some(Error);
    assert Pending(s1, Error, now) && Pending(s1, Error, now + 1);
    ErrorNoticeNeverConsumed(s1, [now, now + 1]);
    assert PendingText(s1, Error, now) == "Disk full" == PendingText(s1, Error, now + 1);
    DecodeFragment(Error, "Disk full");
  }

  /** What the fragment `addLicenseKey()` prints reads back as. */
  lemma AddLicenseKeyReads(q: Query)
    requires AddKeyFlag in q
    ensures Decode(AddLicenseKey(q)[0])
         == Some(if q[AddKeyFlag] == "true" then (Success, KeyAddedText) else (Error, KeyNotAddedText))
  {
    FlagNoticeReads(Lookup(q, AddKeyFlag), KeyAddedText, KeyNotAddedText);
  }

  /** What the fragment `activateLicenseKey()` prints reads back as. */
  lemma ActivateLicenseKeyReads(q: Query)
    requires ActivateKeyFlag in q
    ensures Decode(ActivateLicenseKey(q)[0])
         == Some(if q[ActivateKeyFlag] == "true" then (Success, KeyActivatedText) else (Error, KeyNotDeactivatedText))
  {
    FlagNoticeReads(Lookup(q, ActivateKeyFlag), KeyActivatedText, KeyNotDeactivatedText);
  }

  /** What the fragment `deleteLicenseKey()` prints reads back as: the activate handler's texts. */
  lemma DeleteLicenseKeyReads(q: Query)
    requires DeleteKeyFlag in q
    ensures Decode(DeleteLicenseKey(q)[0])
         == Some(if q[DeleteKeyFlag] == "true" then (Success, KeyActivatedText) else (Error, KeyNotDeactivatedText))
  {
    FlagNoticeReads(Lookup(q, DeleteKeyFlag), KeyActivatedText, KeyNotDeactivatedText);
  }

  /** What the fragment `invalidNonce()` prints reads back as. */
  lemma InvalidNonceReads(q: Query)
    requires Lookup(q, NonceFlag) == Some("invalid")
    ensures Decode(InvalidNonce(q)[0]) == Some((Error, InvalidNonceText))
  {
    DecodeFragment(Error, InvalidNonceText);
  }

  /** The delete handler prints, for each flag value, exactly what the activate handler prints. */
  lemma DeleteMirrorsActivate(v: string)
    ensures DeleteLicenseKey(map[DeleteKeyFlag := v]) == ActivateLicenseKey(map[ActivateKeyFlag := v])
  {
  }

  /** `importLicenseKeys()` is not called: a page load prints the same whatever the import flag holds. */
  lemma ImportFlagIsIgnored(s: Store<Notice>, q: Query, now: int, v: string)
    requires WellTyped(s)
    ensures PageLoad(s, q[ImportFlag := v], now) == PageLoad(s, q - {ImportFlag}, now)
  {
    var q1, q2 := q[ImportFlag := v], q - {ImportFlag};
    assert Lookup(q1, AddKeyFlag) == Lookup(q2, AddKeyFlag);
    assert Lookup(q1, ActivateKeyFlag) == Lookup(q2, ActivateKeyFlag);
    assert Lookup(q1, DeleteKeyFlag) == Lookup(q2, DeleteKeyFlag);
    assert Lookup(q1, NonceFlag) == Lookup(q2, NonceFlag);
  }

  /**
    With all four query flags set, a page prints, after the transient notice, one
    fragment per handler in the order add, activate, delete, nonce.
  */
  lemma RequestNoticesFollowInOrder(s: Store<Notice>, q: Query, now: int)
    requires WellTyped(s)
    requires AddKeyFlag in q && ActivateKeyFlag in q && DeleteKeyFlag in q
    requires Lookup(q, NonceFlag) == Some("invalid")
    ensures |PageLoad(s, q, now).echoed| == |Rendered(s, now).echoed| + 4
    ensures PageLoad(s, q, now).echoed[|Rendered(s, now).echoed|..]
         == [AddLicenseKey(q)[0], ActivateLicenseKey(q)[0], DeleteLicenseKey(q)[0], Fragment(Error, InvalidNonceText)]
  {
    var a, b, c, d := AddLicenseKey(q), ActivateLicenseKey(q), DeleteLicenseKey(q), InvalidNonce(q);
    assert a + b + c + d == [a[0], b[0], c[0], Fragment(Error, InvalidNonceText)] by {
      assert |a| == 1 && |b| == 1 && |c| == 1;
      assert d == [Fragment(Error, InvalidNonceText)];
    }
  }

  // ----- Callers of `NoticeBoard` -----

  /** A page load without query flags prints only the transient notice. */
  lemma PageLoadWithoutFlags(s: Store<Notice>, now: int)
    requires WellTyped(s)
    ensures PageLoad(s, map[], now) == Rendered(s, now)
  {
    var e := PageLoad(s, map[], now).echoed;
    assert e[|Rendered(s, now).echoed|..] == [];
  }

  /**
    On a site with no pending notices, `add('error', $message, 500)` followed by
    two admin page loads without query flags prints the error fragment on both.
  */
  method ErrorShownOnTwoPages(now: int, message: string) returns (first: seq<string>, second: seq<string>)
    ensures first == [Fragment(Error, message)]
    ensures second == [Fragment(Error, message)]
  {
    var board := new NoticeBoard(map[]);
    board.Add(now, "error", message, 500);
    assert ParseLevel("error") == Some(Error);
    board.InitAdminNotices(map[], now);
    first := board.output;
    board.InitAdminNotices(map[], now + 1);
    second := board.output[|first|..];
  }

  /**
    On a site with no pending notices, `add('success', $message)` followed by two
    admin page loads without query flags prints the success fragment on the
    first and nothing on the second.
  */
  method SuccessShownOnce(now: int, message: string) returns (first: seq<string>, second: seq<string>)
    requires message != "" && message != "0"
    ensures first == [Fragment(Success, message)]
    ensures second == []
  {
    var board := new NoticeBoard(map[]);
    board.Add(now, "success", message);
    ghost var s1 := board.store;
    AddedNoticeIsShown(map[], now, Success, message, -1, 60, now);
    PageLoadWithoutFlags(s1, now);
    board.InitAdminNotices(map[], now);
    first := board.output;
    ghost var s2 := board.store;
    forall l
      ensures Get(s2, SlotKey(l), now + 1) == None
    {
      SlotKeysDiffer(l, Success);
    }
    PageLoadWithoutFlags(s2, now + 1);
    board.InitAdminNotices(map[], now + 1);
    second := board.output[|first|..];
  }
}
