/** The landing page (src/pages/Index.tsx): a background carousel whose
    index is stepped by the arrow buttons, a 4-second interval and the
    indicator dots, and the FAQ buttons that open the chat with a first
    question. */
module IndexPage {
  import opened Wrappers
  import opened Text
  import Chat
  import SocketContext

  /** `studentImages.length`. */
  const ImageCount := 4

  /** `(prev + 1) % n`: one step forward, wrapping from the last slide to
      the first. */
  function NextIndex(i: nat, n: nat): (r: nat)
    requires n > 0
    ensures r < n
    ensures i < n ==> r == if i == n - 1 then 0 else i + 1
  {
    assert i < n - 1 ==> (i + 1) % n == i + 1;
    (i + 1) % n
  }

  /** `(prev - 1 + n) % n`: one step back, wrapping from the first slide to
      the last. */
  function PrevIndex(i: nat, n: nat): (r: nat)
    requires n > 0
    ensures r < n
    ensures i < n ==> r == if i == 0 then n - 1 else i - 1
  {
    (i - 1 + n) % n
  }

  /** Forward then back, or back then forward, returns to the same slide. */
  lemma StepsUndoEachOther(i: nat, n: nat)
    requires i < n
    ensures PrevIndex(NextIndex(i, n), n) == i
    ensures NextIndex(PrevIndex(i, n), n) == i
  {
  }

  /** The slide after `k` forward steps (arrow clicks or interval ticks). */
  function Advance(i: nat, n: nat, k: nat): (r: nat)
    requires n > 0
    decreases k
  {
    if k == 0 then i else Advance(NextIndex(i, n), n, k - 1)
  }

  /** Below the last slide, `k` steps simply add `k`. */
  lemma {:induction false} AdvanceWithoutWrap(i: nat, n: nat, k: nat)
    requires i + k < n
    ensures Advance(i, n, k) == i + k
    decreases k
  {
    if k > 0 {
      AdvanceWithoutWrap(i + 1, n, k - 1);
    }
  }

  /** Steps compose: `a` steps and then `b` steps are `a + b` steps. */
  lemma {:induction false} AdvanceCompose(i: nat, n: nat, a: nat, b: nat)
    requires n > 0
    ensures Advance(Advance(i, n, a), n, b) == Advance(i, n, a + b)
    decreases a
  {
    if a > 0 {
      AdvanceCompose(NextIndex(i, n), n, a - 1, b);
    }
  }

  /** `n` steps from any slide come back to it: the carousel cycles. */
  lemma FullCycle(i: nat, n: nat)
    requires i < n
    ensures Advance(i, n, n) == i
  {
    AdvanceWithoutWrap(i, n, n - 1 - i);
    assert Advance(n - 1, n, 1) == 0;
    AdvanceCompose(i, n, n - 1 - i, 1);
    AdvanceWithoutWrap(0, n, i);
    AdvanceCompose(i, n, n - i, i);
  }

  /** Slide `k` (and indicator dot `k`) is rendered as the visible one:
      `index === currentImageIndex`. */
  predicate IsVisible(k: nat, current: nat) {
    k == current
  }

  /** The visible slides among the `n` rendered. */
  function VisibleSlides(current: nat, n: nat): (visible: set<nat>)
    ensures current < n ==> visible == {current}
    ensures current >= n ==> visible == {}
  {
    set k: nat | k < n && IsVisible(k, current)
  }

  class Landing {
    var currentImageIndex: nat

    ghost predicate Valid()
      reads this
    {
      currentImageIndex < ImageCount
    }

    constructor ()
      ensures Valid() && currentImageIndex == 0
    {
      currentImageIndex := 0;
    }

    /** The right arrow. */
    method NextImage()
      requires Valid()
      modifies this
      ensures Valid() && currentImageIndex == NextIndex(old(currentImageIndex), ImageCount)
    {
      currentImageIndex := NextIndex(currentImageIndex, ImageCount);
    }

    /** The left arrow. */
    method PrevImage()
      requires Valid()
      modifies this
      ensures Valid() && currentImageIndex == PrevIndex(old(currentImageIndex), ImageCount)
    {
      currentImageIndex := PrevIndex(currentImageIndex, ImageCount);
    }

    /** One firing of the 4-second interval: the same step as the right arrow. */
    method Tick()
      requires Valid()
      modifies this
      ensures Valid() && currentImageIndex == NextIndex(old(currentImageIndex), ImageCount)
    {
      currentImageIndex := NextIndex(currentImageIndex, ImageCount);
    }

    /** An indicator dot; the dots exist only for `0 <= index < ImageCount`. */
    method SelectIndicator(index: nat)
      requires Valid() && index < ImageCount
      modifies this
      ensures Valid() && currentImageIndex == index
    {
      currentImageIndex := index;
    }

    /** The cleanup of the page's `[resetMessage]` effect, which clears the
        socket's last message. It runs when the page unmounts, and also each
        time the provider renders while the page is mounted: the provider
        builds a new `resetMessage` on every render, so the effect's
        dependency changes and React runs the old cleanup before re-running
        the effect. */
    method ResetMessageCleanup(p: SocketContext.WebSocketProvider)
      requires p.Valid()
      modifies p
      ensures p.Valid() && p.message == None
      ensures p.ws == old(p.ws) && p.sessionId == old(p.sessionId) && p.effectSocket == old(p.effectSocket)
    {
      p.ResetMessage();
    }
  }

  /** While the landing page is mounted, an event the provider accepts does
      not stay in `message`: storing it re-renders the provider, and that
      render re-runs the page's effect, whose cleanup clears the slot. */
  method AcceptedEventIsClearedWhileMounted(page: Landing, p: SocketContext.WebSocketProvider,
                                            s: SocketContext.Socket, e: SocketContext.InboundEvent)
    requires p.Valid() && s.readyState == SocketContext.Open && SocketContext.Accepts(e)
    modifies p
    ensures p.message == None
    ensures p.ws == (if SocketContext.BindsSocket(e) then s else old(p.ws)) && p.sessionId == old(p.sessionId)
    ensures p.effectSocket == old(p.effectSocket)
  {
    p.HandleMessage(s, e);
    assert p.message == Some(e);
    page.ResetMessageCleanup(p);
  }

  /** The page's cleanup does not touch the provider's own effect: after it,
      unmounting the provider still closes the socket it opened. */
  method PageCleanupKeepsProviderCleanup(protocol: string, link: string, id: string)
    requires id != ""
  {
    var p := new SocketContext.WebSocketProvider(protocol, link);
    var page := new Landing();
    p.SetSessionId(id);
    var s := p.ws;
    assert s != null;
    s.Opened();
    page.ResetMessageCleanup(p);
    p.Cleanup();
    assert s.readyState == SocketContext.Closing && p.ws == null;
  }

  /** Four interval ticks bring the carousel back to the slide it showed. */
  method TicksCycle(page: Landing)
    requires page.Valid()
    modifies page
  {
    ghost var start := page.currentImageIndex;
    page.Tick();
    page.Tick();
    page.Tick();
    page.Tick();
    FullCycle(start, ImageCount);
    assert page.currentImageIndex == start;
  }

  /** The FAQ buttons; each navigates to the chat with its text as the
      first message. */
  const FaqTopics: seq<string> := ["See available programs", "View payment plans", "Career outcomes", "Application process"]

  /** `w` cannot occur in `s` when one of its characters is missing from `s`. */
  lemma AbsentChar(s: string, w: string, c: char)
    requires c in w && c !in s
    ensures !Contains(s, w)
  {
  }

  /** `w` does not occur in `s` when a piece of it, `part` at offset `at`,
      does not; the scan for the piece decides that. */
  lemma Absent(s: string, w: string, part: string, at: nat)
    requires OccursAt(w, part, at) && !SearchFrom(s, part, 0)
    ensures !Contains(s, w)
  {
    SearchDecidesContains(s, part);
    if Contains(s, w) {
      var i :| 0 <= i <= |s| - |w| && OccursAt(s, w, i);
      var piece := s[i + at..i + at + |part|];
      forall k | 0 <= k < |part|
        ensures piece[k] == part[k]
      {
        assert piece[k] == s[i..i + |w|][at + k];
        assert part[k] == w[at..at + |part|][k];
      }
      assert OccursAt(s, part, i + at);
    }
  }

  /** The keyword tests the FAQ topics pass and fail. They are split by
      topic, and the negative scans by keyword, each stated on its literal,
      so that each proof unfolds only the literals it needs rather than all
      of them at once. */
  lemma ProgramsHits(s: string)
    requires s == "see available programs"
    ensures Contains(s, "program")
  {
    assert OccursAt(s, "program", 14);
  }

  lemma PaymentMisses(s: string)
    requires s == "view payment plans"
    ensures !Contains(s, "program") && !Contains(s, "course") && Contains(s, "payment")
  {
    AbsentChar(s, "program", 'g');
    AbsentChar(s, "course", 'c');
    assert OccursAt(s, "payment", 5);
  }

  /** The scans behind the career topic's misses of "course" and "cost". */
  lemma CareerMissesCourse()
    ensures !Contains("career outcomes", "course")
  {
    var s := "career outcomes";
    assert !SearchFrom(s, "ur", 12) && !SearchFrom(s, "ur", 9) && !SearchFrom(s, "ur", 6) && !SearchFrom(s, "ur", 3);
    Absent(s, "course", "ur", 2);
  }

  lemma CareerMissesCost()
    ensures !Contains("career outcomes", "cost")
  {
    var s := "career outcomes";
    assert !SearchFrom(s, "cost", 9) && !SearchFrom(s, "cost", 6) && !SearchFrom(s, "cost", 3);
    Absent(s, "cost", "cost", 0);
  }

  lemma CareerMisses(s: string)
    requires s == "career outcomes"
    ensures !Contains(s, "program") && !Contains(s, "course")
    ensures !Contains(s, "payment") && !Contains(s, "price") && !Contains(s, "cost")
    ensures Contains(s, "career")
  {
    AbsentChar(s, "program", 'g');
    CareerMissesCourse();
    AbsentChar(s, "payment", 'y');
    AbsentChar(s, "price", 'p');
    CareerMissesCost();
    assert OccursAt(s, "career", 0);
  }

  /** The scans behind the application topic's misses of "price", and of
      "cost" and "career". */
  lemma ApplicationMissesPrice()
    ensures !Contains("application process", "price")
  {
    var s := "application process";
    assert !SearchFrom(s, "ri", 15) && !SearchFrom(s, "ri", 12) && !SearchFrom(s, "ri", 9);
    assert !SearchFrom(s, "ri", 6) && !SearchFrom(s, "ri", 3);
    Absent(s, "price", "ri", 1);
  }

  lemma ApplicationMissesCostAndCareer()
    ensures !Contains("application process", "cost")
    ensures !Contains("application process", "career")
  {
    var s := "application process";
    assert !SearchFrom(s, "cost", 12) && !SearchFrom(s, "cost", 9) && !SearchFrom(s, "cost", 6) && !SearchFrom(s, "cost", 3);
    Absent(s, "cost", "cost", 0);
    assert !SearchFrom(s, "career", 12) && !SearchFrom(s, "career", 9) && !SearchFrom(s, "career", 6) && !SearchFrom(s, "career", 3);
    Absent(s, "career", "career", 0);
  }

  lemma ApplicationMissesPrograms(s: string)
    requires s == "application process"
    ensures !Contains(s, "program") && !Contains(s, "course")
  {
    AbsentChar(s, "program", 'g');
    AbsentChar(s, "course", 'u');
  }

  lemma ApplicationMissesPayment(s: string)
    requires s == "application process"
    ensures !Contains(s, "payment") && !Contains(s, "price") && !Contains(s, "cost")
  {
    AbsentChar(s, "payment", 'y');
    ApplicationMissesPrice();
    ApplicationMissesCostAndCareer();
  }

  lemma ApplicationMisses(s: string)
    requires s == "application process"
    ensures !Contains(s, "program") && !Contains(s, "course")
    ensures !Contains(s, "payment") && !Contains(s, "price") && !Contains(s, "cost")
    ensures !Contains(s, "career") && !Contains(s, "job") && !Contains(s, "outcome")
    ensures Contains(s, "application")
  {
    ApplicationMissesPrograms(s);
    ApplicationMissesPayment(s);
    ApplicationMissesCostAndCareer();
    AbsentChar(s, "job", 'j');
    AbsentChar(s, "outcome", 'u');
    assert OccursAt(s, "application", 0);
  }

  /** The FAQ texts in lower case: only the capital first letter changes. */
  lemma LowerProgramsTopic(t: string)
    requires t == "See available programs"
    ensures Lower(t) == "see available programs"
  {
    assert Lower(t)[0] == LowerChar(t[0]);
  }

  lemma LowerPaymentTopic(t: string)
    requires t == "View payment plans"
    ensures Lower(t) == "view payment plans"
  {
    assert Lower(t)[0] == LowerChar(t[0]);
  }

  lemma LowerCareerTopic(t: string)
    requires t == "Career outcomes"
    ensures Lower(t) == "career outcomes"
  {
    assert Lower(t)[0] == LowerChar(t[0]);
  }

  lemma LowerApplicationTopic(t: string)
    requires t == "Application process"
    ensures Lower(t) == "application process"
  {
    assert Lower(t)[0] == LowerChar(t[0]);
  }

  /** Each FAQ topic lands in its own keyword group (programs, payment,
      career and application, in that order) and so gets that group's
      reply. */
  lemma FaqTopicsReachTheirGroups(k: nat, draw: real)
    requires k < |FaqTopics|
    ensures Chat.FirstMatch(Lower(FaqTopics[k]), Chat.Keywords) == k
    ensures Chat.GenerateResponse(FaqTopics[k], draw) == Chat.TopicResponse(k, draw)
  {
    var s := Lower(FaqTopics[k]);
    if k == 0 { LowerProgramsTopic(FaqTopics[k]); ProgramsHits(s); }
    else if k == 1 { LowerPaymentTopic(FaqTopics[k]); PaymentMisses(s); }
    else if k == 2 { LowerCareerTopic(FaqTopics[k]); CareerMisses(s); }
    else { LowerApplicationTopic(FaqTopics[k]); ApplicationMisses(s); }
    Chat.GenerateResponseIsFirstMatch(FaqTopics[k], draw);
  }
}
