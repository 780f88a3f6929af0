/**
  Image ownership around one official evaluation
  (agent_forge/bench/adapters/official_evaluator.py): the images pulled for the run are leased, and
  released on every way out.

  The Docker daemon is a map from tags to the platforms of their images.  A pull or a removal may fail,
  a pull may bring any platform, and an inspection may fail to see a tag that is there; which of these
  happens is left open, and the daemon's log records what was done.  The harness leaves the images alone.
*/
module OfficialImages {
  import opened Wrappers
  import opened CampaignDomain
  import opened Counting
  import opened OfficialResults

  type Images = map<string, string>

  datatype Inspection = Absent | Identity(platform: string) | Malformed

  /** The daemon's log: what inspections answered about a tag that is there, pulls, and attempts to remove a tag. */
  datatype Event =
    | Overlooked(tag: string)
    | Garbled(tag: string)
    | Seen(tag: string, platform: string)
    | PullFailed(tag: string)
    | Pulled(tag: string)
    | RemovalTried(tag: string, ok: bool)

  /** What an inspection leaves in the log. */
  function Noted(tag: string, seen: Inspection, present: bool): seq<Event> {
    match seen
    case Absent => if present then [Overlooked(tag)] else []
    case Malformed => [Garbled(tag)]
    case Identity(platform) => [Seen(tag, platform)]
  }

  class DockerHost {
    var images: Images
    ghost var log: seq<Event>

    /** `docker image inspect`; never sees a tag that is not there, and reports the image's platform. */
    method Inspect(tag: string) returns (seen: Inspection)
      modifies this`log
      ensures seen.Identity? ==> tag in images && seen.platform == images[tag]
      ensures log == old(log) + Noted(tag, seen, tag in images)
    {
      var fails: bool, malformed: bool := *, *;
      seen := if fails || tag !in images then Absent else if malformed then Malformed else Identity(images[tag]);
      log := log + Noted(tag, seen, tag in images);
    }

    /** `docker pull`. */
    method Pull(tag: string) returns (ok: bool)
      modifies this
      ensures !ok ==> images == old(images) && log == old(log) + [PullFailed(tag)]
      ensures ok ==> tag in images && images == old(images)[tag := images[tag]] && log == old(log) + [Pulled(tag)]
    {
      var platform: string := *;
      ok := *;
      if ok {
        images := images[tag := platform];
        log := log + [Pulled(tag)];
      } else {
        log := log + [PullFailed(tag)];
      }
    }

    /** `docker image rm`; fails on a tag that is not there, and may fail on any other. */
    method Remove(tag: string) returns (ok: bool)
      modifies this
      ensures ok ==> tag in old(images)
      ensures images == if ok then old(images) - {tag} else old(images)
      ensures log == old(log) + [RemovalTried(tag, ok)]
    {
      var fails: bool := *;
      ok := !fails && tag in images;
      if ok { images := images - {tag}; }
      log := log + [RemovalTried(tag, ok)];
    }
  }

  // ----- reading the log -----

  /** The tags that were tried to be removed, in order. */
  function RemovalsOf(log: seq<Event>): seq<string> {
    if log == [] then []
    else
      var rest, last := RemovalsOf(log[..|log| - 1]), log[|log| - 1];
      if last.RemovalTried? then rest + [last.tag] else rest
  }

  /** The tags that were pulled, in order. */
  function PullsOf(log: seq<Event>): seq<string> {
    if log == [] then []
    else
      var rest, last := PullsOf(log[..|log| - 1]), log[|log| - 1];
      if last.Pulled? then rest + [last.tag] else rest
  }

  lemma LogGrows(past: seq<Event>, events: seq<Event>, more: seq<Event>)
    ensures past + events + more == past + (events + more)
  {
  }

  /** Some removal failed. */
  ghost predicate AnyFailure(log: seq<Event>) {
    exists tag :: RemovalTried(tag, false) in log
  }

  lemma {:induction false} LogConcat(a: seq<Event>, b: seq<Event>)
    ensures RemovalsOf(a + b) == RemovalsOf(a) + RemovalsOf(b) && PullsOf(a + b) == PullsOf(a) + PullsOf(b)
  {
    if b == [] {
      assert a + b == a;
    } else {
      assert (a + b)[..|a + b| - 1] == a + b[..|b| - 1];
      LogConcat(a, b[..|b| - 1]);
    }
  }

  lemma LogAppend(log: seq<Event>, e: Event)
    ensures RemovalsOf(log + [e]) == if e.RemovalTried? then RemovalsOf(log) + [e.tag] else RemovalsOf(log)
    ensures PullsOf(log + [e]) == if e.Pulled? then PullsOf(log) + [e.tag] else PullsOf(log)
  {
    assert (log + [e])[..|log|] == log;
  }

  datatype Lease = Lease(tag: string, owned: bool, verified: bool)

  /** The tags of the owned leases, in the order in which they were taken. */
  function OwnedTags(leases: seq<Lease>): seq<string> {
    if leases == [] then []
    else
      var rest, last := OwnedTags(leases[..|leases| - 1]), leases[|leases| - 1];
      if last.owned then rest + [last.tag] else rest
  }

  // ----- releasing -----

  /** What trying the tags `done`, last one first, has made of the images. */
  ghost predicate Releasing(before: Images, now: Images, events: seq<Event>, done: seq<string>) {
    && RemovalsOf(events) == Reversed(done) && PullsOf(events) == []
    && (forall tag :: tag in now ==> tag in before && now[tag] == before[tag])
    && (forall tag :: tag in before ==> (tag in now <==> RemovalTried(tag, true) !in events))
    && (forall tag, ok :: RemovalTried(tag, ok) in events ==> tag in done)
    && (forall i :: 0 <= i < |events| ==> events[i].RemovalTried?)
  }

  lemma ReleaseStep(before: Images, now: Images, after: Images, events: seq<Event>, done: seq<string>, tag: string,
                    ok: bool)
    requires Releasing(before, now, events, done)
    requires ok ==> tag in now
    requires after == if ok then now - {tag} else now
    ensures Releasing(before, after, events + [RemovalTried(tag, ok)], [tag] + done)
  {
    LogAppend(events, RemovalTried(tag, ok));
    assert ([tag] + done)[1..] == done;
  }

  /** One removal; a failed one gives a warning. */
  method ReleaseTag(host: DockerHost, tag: string, warnings: nat, ghost before: Images, ghost past: seq<Event>,
                    ghost events: seq<Event>, ghost done: seq<string>)
    returns (now: nat, ghost eventsNow: seq<Event>)
    requires host.log == past + events && Releasing(before, host.images, events, done)
    requires warnings == 0 <==> !AnyFailure(events)
    modifies host
    ensures host.log == past + eventsNow && Releasing(before, host.images, eventsNow, [tag] + done)
    ensures now == 0 <==> !AnyFailure(eventsNow)
  {
    ghost var images := host.images;
    var ok := host.Remove(tag);
    ReleaseStep(before, images, host.images, events, done, tag, ok);
    AnyFailureStep(events, tag, ok);
    eventsNow := events + [RemovalTried(tag, ok)];
    LogGrows(past, events, [RemovalTried(tag, ok)]);
    now := if ok then warnings else warnings + 1;
  }

  lemma AnyFailureStep(events: seq<Event>, tag: string, ok: bool)
    ensures AnyFailure(events + [RemovalTried(tag, ok)]) <==> AnyFailure(events) || !ok
  {
    var after := events + [RemovalTried(tag, ok)];
    if !ok { assert RemovalTried(tag, false) in after; }
    if AnyFailure(events) {
      var t :| RemovalTried(t, false) in events;
      assert RemovalTried(t, false) in after;
    }
  }

  /** `_release_owned_images`: the owned leases are tried in reverse order, with a warning for each failure. */
  method ReleaseOwnedImages(host: DockerHost, leases: seq<Lease>) returns (warnings: nat, ghost events: seq<Event>)
    modifies host
    ensures host.log == old(host.log) + events
    ensures Releasing(old(host.images), host.images, events, OwnedTags(leases))
    ensures warnings == 0 <==> !AnyFailure(events)
  {
    ghost var before, past := host.images, host.log;
    warnings, events := 0, [];
    assert leases[..|leases|] == leases;
    ghost var done: seq<string> := [];
    for i := |leases| downto 0
      invariant OwnedTags(leases) == OwnedTags(leases[..i]) + done
      invariant host.log == past + events && Releasing(before, host.images, events, done)
      invariant warnings == 0 <==> !AnyFailure(events)
    {
      assert leases[..i + 1][..i] == leases[..i];
      if leases[i].owned {
        warnings, events := ReleaseTag(host, leases[i].tag, warnings, before, past, events, done);
        done := [leases[i].tag] + done;
      }
    }
    assert done == OwnedTags(leases);
  }

  // ----- preparing -----

  datatype Request = Request(namespaceEmpty: bool, namespace: string, platform: string)

  /** A platform is asked for whose tags `_official_image_tag` cannot name, and there is a case to name one for. */
  predicate Unnameable(request: Request, cases: nat) {
    && request.platform != "" && !request.namespaceEmpty && request.namespace != ""
    && request.platform !in {"linux/amd64", "linux/arm64"} && cases > 0
  }

  predicate KnownPlatform(platform: string) {
    platform == "linux/amd64" || platform == "linux/arm64"
  }

  /** An image that was there before a pull, on entry or from an earlier pull, was overlooked. */
  ghost predicate OnlyOverlooked(entry: Images, events: seq<Event>) {
    var pulls := PullsOf(events);
    && (forall tag :: tag in pulls && tag in entry ==> Overlooked(tag) in events)
    && (forall i, j :: 0 <= i < j < |pulls| && pulls[i] == pulls[j] ==> Overlooked(pulls[j]) in events)
  }

  /** The preparation so far: the owned leases are exactly the successful pulls, in order. */
  ghost predicate Preparing(entry: Images, now: Images, events: seq<Event>, leases: seq<Lease>) {
    && OwnedTags(leases) == PullsOf(events) && RemovalsOf(events) == []
    && (forall tag, ok :: RemovalTried(tag, ok) !in events)
    && (forall tag :: tag in now <==> tag in entry || tag in PullsOf(events))
    && (forall tag :: tag in entry && tag !in PullsOf(events) ==> now[tag] == entry[tag])
    && OnlyOverlooked(entry, events)
  }

  // ----- why a preparation stops -----

  /**
    A pull that failed, an inspection without a usable answer, an image of another platform, or one that is
    not seen right after its pull.
  */
  predicate RefusesAt(events: seq<Event>, platform: string, i: nat)
    requires i < |events|
  {
    match events[i]
    case PullFailed(_) => true
    case Garbled(_) => true
    case Seen(_, observed) => observed != platform
    case Overlooked(tag) => i > 0 && events[i - 1] == Pulled(tag)
    case _ => false
  }

  ghost predicate Refused(events: seq<Event>, platform: string) {
    exists i: nat :: i < |events| && RefusesAt(events, platform, i)
  }

  lemma RefusedAppend(events: seq<Event>, e: Event, platform: string)
    ensures Refused(events + [e], platform) <==>
            Refused(events, platform) || RefusesAt(events + [e], platform, |events|)
  {
    var all := events + [e];
    assert forall i: nat :: i < |events| ==> RefusesAt(all, platform, i) == RefusesAt(events, platform, i);
    if i: nat :| i < |events| && RefusesAt(events, platform, i) { assert RefusesAt(all, platform, i); }
  }

  /** Releasing is no reason to stop. */
  lemma RefusedRelease(seen: seq<Event>, events: seq<Event>, platform: string)
    requires forall i :: 0 <= i < |events| ==> events[i].RemovalTried?
    ensures Refused(seen + events, platform) <==> Refused(seen, platform)
  {
    var all := seen + events;
    assert forall i: nat :: i < |seen| ==> RefusesAt(all, platform, i) == RefusesAt(seen, platform, i);
    if i: nat :| i < |seen| && RefusesAt(seen, platform, i) { assert RefusesAt(all, platform, i); }
  }

  /** Nothing has just been pulled. */
  predicate Calm(events: seq<Event>) {
    events != [] ==> !events[|events| - 1].Pulled?
  }

  lemma OwnedAppend(leases: seq<Lease>, lease: Lease)
    ensures OwnedTags(leases + [lease]) == if lease.owned then OwnedTags(leases) + [lease.tag] else OwnedTags(leases)
  {
    assert (leases + [lease])[..|leases|] == leases;
  }

  /** Any event that moves no image. */
  lemma PreparingNote(entry: Images, now: Images, events: seq<Event>, leases: seq<Lease>, e: Event)
    requires Preparing(entry, now, events, leases) && !e.Pulled? && !e.RemovalTried?
    ensures Preparing(entry, now, events + [e], leases)
  {
    LogAppend(events, e);
  }

  lemma PreparingNoted(entry: Images, now: Images, events: seq<Event>, leases: seq<Lease>, tag: string,
                       seen: Inspection, present: bool)
    requires Preparing(entry, now, events, leases)
    ensures Preparing(entry, now, events + Noted(tag, seen, present), leases)
    ensures seen.Absent? && present ==> Overlooked(tag) in events + Noted(tag, seen, present)
  {
    if Noted(tag, seen, present) == [] {
      assert events + [] == events;
    } else {
      var e := Noted(tag, seen, present)[0];
      assert Noted(tag, seen, present) == [e];
      PreparingNote(entry, now, events, leases, e);
    }
  }

  /** A pull of a tag that is absent, or was overlooked. */
  lemma PreparingPull(entry: Images, before: Images, now: Images, events: seq<Event>, leases: seq<Lease>, tag: string)
    requires Preparing(entry, before, events, leases) && (tag in before ==> Overlooked(tag) in events)
    requires tag in now && now == before[tag := now[tag]]
    ensures Preparing(entry, now, events + [Pulled(tag)], leases + [Lease(tag, true, false)])
  {
    LogAppend(events, Pulled(tag));
    OwnedAppend(leases, Lease(tag, true, false));
    var pulls := PullsOf(events);
    assert forall i :: 0 <= i < |pulls| ==> pulls[i] in before;
  }

  /** Verifying the last lease, or adding one that is not owned, does not change what is owned. */
  lemma SameOwned(entry: Images, now: Images, events: seq<Event>, leases: seq<Lease>, more: seq<Lease>)
    requires Preparing(entry, now, events, leases) && OwnedTags(more) == OwnedTags(leases)
    ensures Preparing(entry, now, events, more)
  {
  }

  /** All images but one are as they were. */
  ghost predicate Elsewhere(tag: string, before: Images, now: Images) {
    forall other :: other != tag && other in before ==> other in now && now[other] == before[other]
  }

  /** The pull of a tag that was inspected as absent; ownership is recorded before anything else can fail. */
  method PullImage(host: DockerHost, tag: string, leases: seq<Lease>, ghost entry: Images, ghost past: seq<Event>,
                   ghost events: seq<Event>)
    returns (ok: bool, now: seq<Lease>, ghost eventsNow: seq<Event>)
    requires host.log == past + events && Preparing(entry, host.images, events, leases)
    requires tag in host.images ==> Overlooked(tag) in events
    modifies host
    ensures host.log == past + eventsNow && Preparing(entry, host.images, eventsNow, now)
    ensures Elsewhere(tag, old(host.images), host.images)
    ensures now == if ok then leases + [Lease(tag, true, false)] else leases
    ensures ok ==> eventsNow == events + [Pulled(tag)]
    ensures !ok ==> eventsNow == events + [PullFailed(tag)]
    ensures ok ==> tag in host.images
  {
    ghost var before := host.images;
    ok := host.Pull(tag);
    LogGrows(past, events, [if ok then Pulled(tag) else PullFailed(tag)]);
    if ok {
      now, eventsNow := leases + [Lease(tag, true, false)], events + [Pulled(tag)];
      PreparingPull(entry, before, host.images, events, leases, tag);
    } else {
      now, eventsNow := leases, events + [PullFailed(tag)];
      PreparingNote(entry, before, events, leases, PullFailed(tag));
    }
  }

  /** An inspection during the preparation. */
  method InspectImage(host: DockerHost, tag: string, ghost leases: seq<Lease>, ghost entry: Images,
                      ghost past: seq<Event>, ghost events: seq<Event>)
    returns (seen: Inspection, ghost eventsNow: seq<Event>)
    requires host.log == past + events && Preparing(entry, host.images, events, leases)
    modifies host`log
    ensures host.log == past + eventsNow && Preparing(entry, host.images, eventsNow, leases)
    ensures eventsNow == events + Noted(tag, seen, tag in host.images)
    ensures seen.Absent? && tag in host.images ==> Overlooked(tag) in eventsNow
    ensures seen.Identity? ==> tag in host.images && seen.platform == host.images[tag]
  {
    seen := host.Inspect(tag);
    LogGrows(past, events, Noted(tag, seen, tag in host.images));
    PreparingNoted(entry, host.images, events, leases, tag, seen, tag in host.images);
    eventsNow := events + Noted(tag, seen, tag in host.images);
  }

  /** The verified lease replaces the provisional one of an owned image, or is added for a shared one. */
  method RecordLease(now: seq<Lease>, tag: string, owned: bool, ghost leases: seq<Lease>)
    returns (recorded: seq<Lease>)
    requires now == if owned then leases + [Lease(tag, true, false)] else leases
    ensures recorded == leases + [Lease(tag, owned, true)] && OwnedTags(recorded) == OwnedTags(now)
  {
    OwnedAppend(leases, Lease(tag, true, false));
    OwnedAppend(leases, Lease(tag, owned, true));
    if owned {
      recorded := now[|now| - 1 := Lease(tag, true, true)];
      assert recorded == leases + [Lease(tag, true, true)];
    } else {
      recorded := now + [Lease(tag, false, true)];
    }
  }

  /** The notes of an inspection are a reason to stop only if they say so themselves. */
  lemma RefusedNoted(events: seq<Event>, tag: string, seen: Inspection, present: bool, platform: string)
    requires !Refused(events, platform)
    ensures Refused(events + Noted(tag, seen, present), platform) <==>
            || seen.Malformed? || (seen.Identity? && seen.platform != platform)
            || (seen.Absent? && present && events != [] && events[|events| - 1] == Pulled(tag))
  {
    if Noted(tag, seen, present) == [] {
      assert events + [] == events;
    } else {
      RefusedAppend(events, Noted(tag, seen, present)[0], platform);
      assert Noted(tag, seen, present) == [Noted(tag, seen, present)[0]];
    }
  }

  lemma PullFailedRefuses(events: seq<Event>, tag: string, platform: string)
    ensures Refused(events + [PullFailed(tag)], platform)
  {
    assert RefusesAt(events + [PullFailed(tag)], platform, |events|);
  }

  /** After a pull only the requested platform is no reason to stop. */
  lemma PulledNoted(events: seq<Event>, tag: string, seen: Inspection, platform: string)
    requires !Refused(events, platform)
    ensures
      var all := events + [Pulled(tag)] + Noted(tag, seen, true);
      && (Refused(all, platform) <==> !(seen.Identity? && seen.platform == platform))
      && (seen.Identity? ==> Calm(all))
  {
    RefusedAppend(events, Pulled(tag), platform);
    RefusedNoted(events + [Pulled(tag)], tag, seen, true, platform);
  }

  /** The part of the loop body for an image that was not seen: pull it, record it, and look again. */
  method PullAndInspect(host: DockerHost, tag: string, platform: string, leases: seq<Lease>, ghost entry: Images,
                        ghost past: seq<Event>, ghost events: seq<Event>)
    returns (seen: Inspection, now: seq<Lease>, ghost eventsNow: seq<Event>)
    requires host.log == past + events && Preparing(entry, host.images, events, leases)
    requires tag in host.images ==> Overlooked(tag) in events
    requires !Refused(events, platform)
    modifies host
    ensures host.log == past + eventsNow && Preparing(entry, host.images, eventsNow, now)
    ensures Elsewhere(tag, old(host.images), host.images)
    ensures seen.Identity? ==>
      now == leases + [Lease(tag, true, false)] && tag in host.images && seen.platform == host.images[tag]
    ensures Refused(eventsNow, platform) <==> !(seen.Identity? && seen.platform == platform)
    ensures seen.Identity? ==> Calm(eventsNow)
  {
    var pulled;
    pulled, now, eventsNow := PullImage(host, tag, leases, entry, past, events);
    if !pulled {
      PullFailedRefuses(events, tag, platform);
      return Absent, now, eventsNow;
    }
    seen, eventsNow := InspectImage(host, tag, now, entry, past, eventsNow);
    PulledNoted(events, tag, seen, platform);
  }

  /** The body of the loop in `_prepare_official_images`; false when it raises. */
  method PrepareImage(host: DockerHost, tag: string, platform: string, leases: seq<Lease>, ghost entry: Images,
                      ghost past: seq<Event>, ghost events: seq<Event>)
    returns (ok: bool, now: seq<Lease>, ghost eventsNow: seq<Event>)
    requires host.log == past + events && Preparing(entry, host.images, events, leases)
    requires !Refused(events, platform) && Calm(events)
    modifies host
    ensures host.log == past + eventsNow && Preparing(entry, host.images, eventsNow, now)
    ensures Elsewhere(tag, old(host.images), host.images)
    ensures ok ==> now == leases + [Lease(tag, true, true)] || now == leases + [Lease(tag, false, true)]
    ensures ok ==> tag in host.images && host.images[tag] == platform
    ensures ok <==> !Refused(eventsNow, platform)
    ensures ok ==> Calm(eventsNow)
  {
    now := leases;
    var identity;
    identity, eventsNow := InspectImage(host, tag, leases, entry, past, events);
    RefusedNoted(events, tag, identity, tag in host.images, platform);
    if identity.Malformed? { return false, now, eventsNow; }
    var owned := identity.Absent?;
    if owned { identity, now, eventsNow := PullAndInspect(host, tag, platform, leases, entry, past, eventsNow); }
    if !identity.Identity? || identity.platform != platform { return false, now, eventsNow; }
    ghost var provisional := now;
    now := RecordLease(now, tag, owned, leases);
    SameOwned(entry, host.images, eventsNow, provisional, now);
    ok := true;
  }

  // ----- what is left behind -----

  /**
    What every way out leaves behind.  The tags tried to be removed are the successful pulls in reverse
    order; the images that were not pulled are as they were, and of the pulled ones exactly those are
    left whose removals all failed.
  */
  ghost predicate Ended(entry: Images, now: Images, events: seq<Event>) {
    && RemovalsOf(events) == Reversed(PullsOf(events))
    && (forall tag :: tag !in PullsOf(events) ==>
          (tag in now <==> tag in entry) && (tag in entry && tag in now ==> now[tag] == entry[tag]))
    && (forall tag :: tag in PullsOf(events) ==> (tag in now <==> RemovalTried(tag, true) !in events))
    && (forall tag, ok :: RemovalTried(tag, ok) in events ==> tag in PullsOf(events))
    && OnlyOverlooked(entry, events)
  }

  lemma ReleasedIsEnded(entry: Images, before: Images, now: Images, leases: seq<Lease>, seen: seq<Event>,
                        events: seq<Event>)
    requires Preparing(entry, before, seen, leases) && Releasing(before, now, events, OwnedTags(leases))
    ensures Ended(entry, now, seen + events)
    ensures AnyFailure(seen + events) <==> AnyFailure(events)
    ensures forall platform :: Refused(seen + events, platform) <==> Refused(seen, platform)
    ensures PullsOf(seen + events) == PullsOf(seen)
  {
    LogConcat(seen, events);
    assert PullsOf(seen + events) == PullsOf(seen) + [];
    assert forall tag, ok :: RemovalTried(tag, ok) in seen + events <==> RemovalTried(tag, ok) in events;
    forall platform ensures Refused(seen + events, platform) <==> Refused(seen, platform) {
      RefusedRelease(seen, events, platform);
    }
  }

  /** Releasing the leases of a preparation. */
  method Release(host: DockerHost, leases: seq<Lease>, ghost entry: Images, ghost past: seq<Event>,
                 ghost events: seq<Event>)
    returns (warnings: nat, ghost eventsNow: seq<Event>)
    requires host.log == past + events && Preparing(entry, host.images, events, leases)
    modifies host
    ensures host.log == past + eventsNow && Ended(entry, host.images, eventsNow)
    ensures warnings == 0 <==> !AnyFailure(eventsNow)
    ensures forall platform :: Refused(eventsNow, platform) <==> Refused(events, platform)
    ensures PullsOf(eventsNow) == PullsOf(events)
  {
    ghost var before, released := host.images, [];
    warnings, released := ReleaseOwnedImages(host, leases);
    ReleasedIsEnded(entry, before, host.images, leases, events, released);
    eventsNow := events + released;
    LogGrows(past, events, released);
  }

  /** The images that the leases stand for are there, with the requested platform. */
  ghost predicate Ready(images: Images, leases: seq<Lease>, platform: string) {
    forall i :: 0 <= i < |leases| ==>
      leases[i].verified && leases[i].tag in images && images[leases[i].tag] == platform
  }

  lemma ReadyNext(before: Images, now: Images, leases: seq<Lease>, next: Lease, platform: string)
    requires Ready(before, leases, platform) && Elsewhere(next.tag, before, now)
    requires next.verified && next.tag in now && now[next.tag] == platform
    ensures Ready(now, leases + [next], platform)
  {
  }

  lemma StartPreparing(entry: Images)
    ensures Preparing(entry, entry, [], [])
  {
  }

  datatype Prepared = Leases(leases: seq<Lease>) | RaisedRuntimeError | RaisedOtherError

  /** The loop of `_prepare_official_images`; false when it raises. */
  method PrepareAll(host: DockerHost, results: seq<BenchCaseResult>, platform: string, tagOf: string -> string,
                    ghost entry: Images, ghost past: seq<Event>)
    returns (ok: bool, leases: seq<Lease>, ghost events: seq<Event>)
    requires host.log == past && host.images == entry
    modifies host
    ensures host.log == past + events && Preparing(entry, host.images, events, leases)
    ensures ok <==> !Refused(events, platform)
    ensures ok ==> |leases| == |results| && Ready(host.images, leases, platform)
    ensures ok ==> forall i :: 0 <= i < |results| ==> leases[i].tag == tagOf(results[i].instanceId)
  {
    leases, events := [], [];
    StartPreparing(entry);
    for i := 0 to |results|
      invariant host.log == past + events && Preparing(entry, host.images, events, leases)
      invariant |leases| == i && Ready(host.images, leases, platform)
      invariant forall j :: 0 <= j < i ==> leases[j].tag == tagOf(results[j].instanceId)
      invariant !Refused(events, platform) && Calm(events)
    {
      var now;
      ghost var before := host.images;
      ok, now, events := PrepareImage(host, tagOf(results[i].instanceId), platform, leases, entry, past, events);
      if !ok { return false, now, events; }
      ReadyNext(before, host.images, leases, now[i], platform);
      leases := now;
    }
    ok := true;
  }

  /**
    `_prepare_official_images`.  `tagOf` is `_official_image_tag` for the given namespace and platform, which
    raises for an unknown platform; two cases may share a tag.
  */
  method PrepareOfficialImages(host: DockerHost, results: seq<BenchCaseResult>, request: Request,
                               tagOf: string -> string)
    returns (prepared: Prepared, ghost events: seq<Event>)
    modifies host
    ensures host.log == old(host.log) + events
    ensures prepared.Leases? ==> Preparing(old(host.images), host.images, events, prepared.leases)
    ensures !prepared.Leases? ==> Ended(old(host.images), host.images, events)
    ensures prepared.RaisedRuntimeError? <==> Refused(events, request.platform)
    ensures prepared.RaisedOtherError? <==> Unnameable(request, |results|)
    ensures prepared.RaisedOtherError? ==> !AnyFailure(events)
    ensures prepared.Leases? && request.platform != "" && !request.namespaceEmpty && request.namespace != "" ==>
      |prepared.leases| == |results| && Ready(host.images, prepared.leases, request.platform) &&
      forall i :: 0 <= i < |results| ==> prepared.leases[i].tag == tagOf(results[i].instanceId)
  {
    ghost var entry, past := host.images, host.log;
    events := [];
    StartPreparing(entry);
    var warnings;
    var namespace := if request.namespaceEmpty then "" else request.namespace;
    if request.platform == "" || namespace == "" { return Leases([]), events; }
    if |results| > 0 && !KnownPlatform(request.platform) {
      warnings, events := Release(host, [], entry, past, events);
      return RaisedOtherError, events;
    }
    var ok, leases;
    ok, leases, events := PrepareAll(host, results, request.platform, tagOf, entry, past);
    if !ok {
      warnings, events := Release(host, leases, entry, past, events);
      return RaisedRuntimeError, events;
    }
    prepared := Leases(leases);
  }

  // ----- one evaluation -----

  method MarkAll(results: seq<BenchCaseResult>, status: OfficialStatus)
    modifies results
    ensures AllMarked(results, status)
  {
    for i := 0 to |results|
      invariant forall j :: 0 <= j < i ==> results[j].officialStatus == results[j].evaluationStatus == status
    {
      results[i].officialStatus := status;
      results[i].evaluationStatus := status;
    }
  }

  ghost predicate AllMarked(results: seq<BenchCaseResult>, status: OfficialStatus)
    reads results
  {
    forall r :: r in results ==> r.officialStatus == r.evaluationStatus == status
  }

  /**
    The harness process: it cannot be started, it leaves a report that cannot even be decoded, or it
    leaves report files.
  */
  datatype Harness =
    | CannotStart
    | Undecodable(code: int)
    | Exit(code: int, run: RunReport, path: Option<string>, reports: seq<CaseReport>)

  datatype Ending = PackageMissing | ImagesUnavailable | Evaluated | CleanupFailed | Raised

  /** The status a case gets from the reports and the exit code. */
  function ReportedStatus(h: Harness, id: string): OfficialStatus
    requires h.Exit?
  {
    var merged := Merged(h.run, h.path, h.reports, id);
    if merged == OfficialIncomplete && h.code != 0 then OfficialEvalError else merged
  }

  method InstanceIds(results: seq<BenchCaseResult>) returns (ids: seq<string>)
    ensures forall r :: r in results ==> r.instanceId in ids
  {
    ids := [];
    for i := 0 to |results|
      invariant forall j :: 0 <= j < i ==> results[j].instanceId in ids
    {
      ids := ids + [results[i].instanceId];
    }
  }

  /** Parsing the reports and writing them back. */
  method ApplyReports(results: seq<BenchCaseResult>, h: Harness)
    requires h.Exit?
    modifies results
    ensures forall r :: r in results ==>
      && r.officialStatus == r.evaluationStatus == ReportedStatus(h, r.instanceId)
      && r.officialReportPath == PathOf(h.path, h.reports, r.instanceId)
  {
    var ids := InstanceIds(results);
    var outcomes := ParseOfficialResults(h.run, h.path, h.reports, ids);
    ApplyOfficialResults(results, outcomes, h.code);
    forall r | r in results
      ensures r.officialStatus == ReportedStatus(h, r.instanceId)
      ensures r.officialReportPath == PathOf(h.path, h.reports, r.instanceId)
    {
      assert MergedFor(outcomes[r.instanceId], h.run, h.path, h.reports, r.instanceId);
    }
  }

  class RunSummary {
    const caseResults: seq<BenchCaseResult>
    var exitCode: int

    constructor (results: seq<BenchCaseResult>)
      ensures caseResults == results
    {
      caseResults := results;
      exitCode := 0;
    }
  }

  /** `_evaluate_serial`. */
  method EvaluateSerial(host: DockerHost, summary: RunSummary, request: Request, tagOf: string -> string,
                        installed: bool, harness: Harness)
    returns (ending: Ending, ghost events: seq<Event>)
    modifies host, summary, summary.caseResults
    ensures host.log == old(host.log) + events && Ended(old(host.images), host.images, events)
    ensures ending ==
      if !installed then PackageMissing
      else if Refused(events, request.platform) then ImagesUnavailable
      else if Unnameable(request, |summary.caseResults|) || !harness.Exit? then Raised
      else if AnyFailure(events) then CleanupFailed
      else Evaluated
    ensures ending.PackageMissing? ==>
      AllMarked(summary.caseResults, OfficialUnavailable) && summary.exitCode == 127 && events == []
    ensures ending.ImagesUnavailable? || ending.CleanupFailed? || (ending.Raised? && AnyFailure(events)) ==>
      AllMarked(summary.caseResults, OfficialEvalError) && summary.exitCode == 125
    ensures ending.Raised? && !AnyFailure(events) ==>
      && unchanged(summary.caseResults)
      && summary.exitCode == if harness.Undecodable? && !Unnameable(request, |summary.caseResults|) then harness.code
                             else old(summary.exitCode)
    ensures ending.Evaluated? ==>
      && summary.exitCode == harness.code
      && (forall r :: r in summary.caseResults ==>
            && r.officialStatus == r.evaluationStatus == ReportedStatus(harness, r.instanceId)
            && r.officialReportPath == PathOf(harness.path, harness.reports, r.instanceId))
  {
    events := [];
    var results := summary.caseResults;
    if !installed {
      summary.exitCode := 127;
      MarkAll(results, OfficialUnavailable);
      return PackageMissing, events;
    }
    ghost var entry, past := host.images, host.log;
    var prepared;
    prepared, events := PrepareOfficialImages(host, results, request, tagOf);
    if prepared.RaisedRuntimeError? {
      summary.exitCode := 125;
      MarkAll(results, OfficialEvalError);
      return ImagesUnavailable, events;
    } else if prepared.RaisedOtherError? {
      return Raised, events;
    }
    if !harness.CannotStart? { summary.exitCode := harness.code; }
    if harness.Exit? { ApplyReports(results, harness); }
    var warnings;
    warnings, events := Release(host, prepared.leases, entry, past, events);
    ending := if harness.Exit? then Evaluated else Raised;
    if warnings > 0 {
      summary.exitCode := 125;
      MarkAll(results, OfficialEvalError);
      if harness.Exit? { ending := CleanupFailed; }
    }
  }

  // ----- what the log says about the host -----

  /** A tag of the host is lost exactly when it was pulled again and removed. */
  lemma LostIff(entry: Images, now: Images, events: seq<Event>, tag: string)
    requires Ended(entry, now, events) && tag in entry
    ensures tag !in now <==> Pulled(tag) in events && RemovalTried(tag, true) in events
    ensures tag !in now ==> Overlooked(tag) in events
  {
    PullsAre(events, tag);
  }

  lemma {:induction false} PullsAre(events: seq<Event>, tag: string)
    ensures tag in PullsOf(events) <==> Pulled(tag) in events
  {
    if events != [] {
      PullsAre(events[..|events| - 1], tag);
      assert events == events[..|events| - 1] + [events[|events| - 1]];
    }
  }

  lemma {:induction false} RemovalsAre(events: seq<Event>, tag: string)
    ensures tag in RemovalsOf(events) <==> RemovalTried(tag, true) in events || RemovalTried(tag, false) in events
  {
    if events != [] {
      RemovalsAre(events[..|events| - 1], tag);
      assert events == events[..|events| - 1] + [events[|events| - 1]];
    }
  }

  /** When no removal failed every pulled tag is gone: the host is as found exactly if no pull was of its own tag. */
  lemma HostRestoredIff(entry: Images, now: Images, events: seq<Event>)
    requires Ended(entry, now, events) && !AnyFailure(events)
    ensures now == entry <==> forall tag :: Pulled(tag) in events ==> tag !in entry
  {
    forall tag ensures tag in PullsOf(events) ==> tag !in now {
      if tag in PullsOf(events) {
        var i :| 0 <= i < |PullsOf(events)| && PullsOf(events)[i] == tag;
        assert RemovalsOf(events)[|PullsOf(events)| - 1 - i] == tag;
        RemovalsAre(events, tag);
      }
    }
    forall tag ensures tag in PullsOf(events) <==> Pulled(tag) in events { PullsAre(events, tag); }
    if forall tag :: Pulled(tag) in events ==> tag !in entry {
      assert forall tag :: tag in now <==> tag in entry;
      assert now == entry;
    }
  }

  /** Every tag is released as often as it was pulled, so one is released twice exactly when one was pulled twice. */
  lemma ReleasedTwiceIff(entry: Images, now: Images, events: seq<Event>)
    requires Ended(entry, now, events)
    ensures multiset(RemovalsOf(events)) == multiset(PullsOf(events))
    ensures Distinct(RemovalsOf(events)) <==> Distinct(PullsOf(events))
  {
    ReversedElements(PullsOf(events));
    ReversedDistinct(PullsOf(events));
  }

  lemma RemovalsArePulls(entry: Images, now: Images, events: seq<Event>, tag: string)
    requires Ended(entry, now, events)
    ensures tag in RemovalsOf(events) <==> tag in PullsOf(events)
  {
    ReleasedTwiceIff(entry, now, events);
    assert tag in RemovalsOf(events) <==> tag in multiset(RemovalsOf(events));
    assert tag in PullsOf(events) <==> tag in multiset(PullsOf(events));
  }

  /** One tag, when inspections see what is there. */
  lemma FaithfulTag(entry: Images, now: Images, events: seq<Event>, tag: string)
    requires Ended(entry, now, events) && Overlooked(tag) !in events
    ensures tag in RemovalsOf(events) ==> tag !in entry
    ensures tag in entry ==> tag in now && now[tag] == entry[tag]
    ensures tag in now && tag !in entry ==> RemovalTried(tag, false) in events
  {
    RemovalsArePulls(entry, now, events, tag);
    RemovalsAre(events, tag);
  }

  /**
    When inspections see what is there, no tag of the host is touched, none is released twice, and what
    is left over are exactly the pulled tags whose removal failed.
  */
  lemma FaithfulHost(entry: Images, now: Images, events: seq<Event>)
    requires Ended(entry, now, events) && forall tag :: Overlooked(tag) !in events
    ensures Distinct(RemovalsOf(events)) && forall tag :: tag in RemovalsOf(events) ==> tag !in entry
    ensures forall tag :: tag in entry ==> tag in now && now[tag] == entry[tag]
    ensures forall tag :: tag in now && tag !in entry ==> RemovalTried(tag, false) in events
    ensures !AnyFailure(events) ==> now == entry
  {
    ReleasedTwiceIff(entry, now, events);
    assert Distinct(PullsOf(events));
    forall tag
      ensures tag in RemovalsOf(events) ==> tag !in entry
      ensures tag in entry ==> tag in now && now[tag] == entry[tag]
      ensures tag in now && tag !in entry ==> RemovalTried(tag, false) in events
    {
      FaithfulTag(entry, now, events, tag);
    }
    if !AnyFailure(events) { assert forall tag :: tag in now <==> tag in entry; }
  }

  /** An inspection overlooks the host's only image, which is then pulled, verified and owned. */
  lemma OverlookedIsOwned(tag: string, entry: Images)
    requires entry.Keys == {tag}
    ensures
      var events := [Overlooked(tag)] + [Pulled(tag)] + [Seen(tag, entry[tag])];
      Preparing(entry, entry, events, [Lease(tag, true, true)]) && !Refused(events, entry[tag])
  {
    var looked, pulled, seen := [Overlooked(tag)], [Overlooked(tag)] + [Pulled(tag)], Seen(tag, entry[tag]);
    StartPreparing(entry);
    PreparingNote(entry, entry, [], [], Overlooked(tag));
    assert [] + looked == looked && [] + [Lease(tag, true, false)] == [Lease(tag, true, false)];
    PreparingPull(entry, entry, entry, looked, [], tag);
    PreparingNote(entry, entry, pulled, [Lease(tag, true, false)], seen);
    OwnedAppend([], Lease(tag, true, false));
    OwnedAppend([], Lease(tag, true, true));
    assert [] + [Lease(tag, true, true)] == [Lease(tag, true, true)];
    SameOwned(entry, entry, pulled + [seen], [Lease(tag, true, false)], [Lease(tag, true, true)]);
    RefusedAppend([], Overlooked(tag), entry[tag]);
    RefusedAppend(looked, Pulled(tag), entry[tag]);
    RefusedAppend(pulled, seen, entry[tag]);
  }

  /** Its removal then succeeds: the evaluation has taken an image of the host for its own. */
  lemma LostTagWitness(tag: string, entry: Images, now: Images)
    requires entry.Keys == {tag} && now == map[]
    ensures
      var events := [Overlooked(tag)] + [Pulled(tag)] + [Seen(tag, entry[tag])] + [RemovalTried(tag, true)];
      Ended(entry, now, events) && !Refused(events, entry[tag]) && !AnyFailure(events) && now != entry
  {
    var seen := [Overlooked(tag)] + [Pulled(tag)] + [Seen(tag, entry[tag])];
    var removal, leases := [RemovalTried(tag, true)], [Lease(tag, true, true)];
    OverlookedIsOwned(tag, entry);
    ReleaseStep(entry, entry, now, [], [], tag, true);
    assert [] + removal == removal && [tag] + [] == [tag];
    OwnedAppend([], Lease(tag, true, true));
    assert [] + leases == leases && OwnedTags(leases) == [tag];
    ReleasedIsEnded(entry, entry, now, leases, seen, removal);
    AnyFailureStep([], tag, true);
    assert tag in entry;
  }
}
