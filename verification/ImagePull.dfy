/** Pulling images: both runtimes list their store as text, and pull what the listing does not show. */
module ImagePull {
  import opened Wrappers
  import opened Sequences
  import opened Text
  import opened Sockets
  import KubeRuntime

  // ---- The listings

  /** An image in a host's store. */
  datatype Entry = Entry(repo: string, gap: string, tag: Option<string>, columns: string)

  function EntryRef(e: Entry): string {
    if e.tag.None? then e.repo else e.repo + ":" + e.tag.value
  }

  /** docker tags every image it stores; containerd stores any reference. */
  predicate ValidEntry(r: Runtime, e: Entry) {
    && Free(e.columns, NEWLINE)
    && match r
       case Docker => Word(e.repo) && Gap(e.gap) && e.tag.Some? && Word(e.tag.value)
       case Containerd => Word(EntryRef(e))
  }

  predicate ValidEntries(r: Runtime, entries: seq<Entry>) {
    forall i :: 0 <= i < |entries| ==> ValidEntry(r, entries[i])
  }

  /** docker prints repository and tag in two padded columns, containerd the reference in one. */
  function EntryText(r: Runtime, e: Entry): string {
    match r
    case Docker => e.repo + e.gap + (e.tag.GetOr("<none>") + [' '] + e.columns)
    case Containerd => EntryRef(e) + [' '] + e.columns
  }

  function EntryTexts(r: Runtime, entries: seq<Entry>): seq<string> {
    if entries == [] then [] else [EntryText(r, entries[0])] + EntryTexts(r, entries[1..])
  }

  function ListingText(r: Runtime, header: string, entries: seq<Entry>): string {
    Join([header] + EntryTexts(r, entries), "\n") + "\n"
  }

  function EntryRefs(entries: seq<Entry>): seq<string> {
    if entries == [] then [] else [EntryRef(entries[0])] + EntryRefs(entries[1..])
  }

  function TakeTwo(words: seq<string>): seq<string> {
    if |words| <= 2 then words else words[..2]
  }

  /** What one listing line is read as; containerd's branch has no first item on a blank line. */
  function LineRef(r: Runtime, line: string): Result<string> {
    match r
    case Docker => Ok(Join(TakeTwo(Words(line)), ":"))
    case Containerd => if Words(line) == [] then Err("IndexError") else Ok(Words(line)[0])
  }

  function LineRefs(r: Runtime, lines: seq<string>): Result<seq<string>> {
    if lines == [] then Ok([])
    else
      var first :- LineRef(r, lines[0]);
      var rest :- LineRefs(r, lines[1..]);
      Ok([first] + rest)
  }

  /** `get_local_images` on the raw output; `run_cmd` strips its end. */
  function LocalImages(r: Runtime, stdout: string): Result<seq<string>> {
    LineRefs(r, Lines(RStrip(stdout))[1..])
  }

  lemma {:induction false} DockerEntryReads(e: Entry)
    requires ValidEntry(Docker, e)
    ensures LineRef(Docker, EntryText(Docker, e)) == Ok(EntryRef(e))
  {
    var tag := e.tag.value;
    WordsGap(e.repo, e.gap, tag + [' '] + e.columns);
    WordsAt(tag, ' ', e.columns);
    WordsOfFree(e.repo);
    WordsOfFree(tag);
    var words := Words(EntryText(Docker, e));
    assert words == [e.repo, tag] + Words(e.columns);
    assert TakeTwo(words) == [e.repo, tag];
    JoinTwo(e.repo, tag, ":");
  }

  lemma {:induction false} ContainerdEntryReads(e: Entry)
    requires ValidEntry(Containerd, e)
    ensures LineRef(Containerd, EntryText(Containerd, e)) == Ok(EntryRef(e))
  {
    WordsAt(EntryRef(e), ' ', e.columns);
    WordsOfFree(EntryRef(e));
  }

  lemma {:induction false} EntryShape(r: Runtime, e: Entry)
    requires ValidEntry(r, e)
    ensures RStrip(EntryText(r, e)) != "" && Free(EntryText(r, e), NEWLINE)
  {
    match r
    case Docker =>
      var rest := e.gap + (e.tag.value + [' '] + e.columns);
      assert EntryText(r, e) == e.repo + rest;
      RStripKeepsWord(e.repo, rest);
    case Containerd =>
      assert EntryText(r, e) == EntryRef(e) + ([' '] + e.columns);
      RStripKeepsWord(EntryRef(e), [' '] + e.columns);
  }

  lemma {:induction false} EntryWords(r: Runtime, e: Entry)
    requires ValidEntry(r, e)
    ensures LineRef(r, EntryText(r, e)) == Ok(EntryRef(e))
    ensures RStrip(EntryText(r, e)) != "" && Free(EntryText(r, e), NEWLINE)
  {
    EntryShape(r, e);
    match r
    case Docker => DockerEntryReads(e);
    case Containerd => ContainerdEntryReads(e);
  }

  lemma {:induction false} EntryTextsAt(r: Runtime, entries: seq<Entry>)
    ensures |EntryTexts(r, entries)| == |entries|
    ensures forall i :: 0 <= i < |entries| ==> EntryTexts(r, entries)[i] == EntryText(r, entries[i])
  {
    if entries != [] {
      EntryTextsAt(r, entries[1..]);
    }
  }

  lemma {:induction false} EntryTextsFree(r: Runtime, entries: seq<Entry>)
    requires ValidEntries(r, entries)
    ensures AllFree(EntryTexts(r, entries), NEWLINE)
  {
    EntryTextsAt(r, entries);
    forall i | 0 <= i < |entries|
      ensures Free(EntryTexts(r, entries)[i], NEWLINE)
    {
      EntryShape(r, entries[i]);
    }
  }

  lemma {:induction false} EntryLines(r: Runtime, entries: seq<Entry>)
    requires ValidEntries(r, entries)
    ensures LineRefs(r, EntryTexts(r, entries)) == Ok(EntryRefs(entries))
  {
    if entries != [] {
      EntryWords(r, entries[0]);
      EntryLines(r, entries[1..]);
      var texts := EntryTexts(r, entries);
      assert texts[0] == EntryText(r, entries[0]) && texts[1..] == EntryTexts(r, entries[1..]);
    }
  }

  lemma {:induction false} SameWordsSameRefs(r: Runtime, a: seq<string>, b: seq<string>)
    requires |a| == |b| && forall i :: 0 <= i < |a| ==> Words(a[i]) == Words(b[i])
    ensures LineRefs(r, a) == LineRefs(r, b)
  {
    if a != [] {
      SameWordsSameRefs(r, a[1..], b[1..]);
    }
  }

  /** The lines read from a listing have the words of the printed lines. */
  lemma {:induction false} StrippedWords(lines: seq<string>)
    requires lines != [] && AllFree(lines, NEWLINE) && (|lines| > 1 ==> RStrip(lines[|lines| - 1]) != "")
    ensures var read := Lines(RStrip(Join(lines, "\n") + "\n"));
            |read| == |lines| && forall i :: 0 <= i < |read| ==> Words(read[i]) == Words(lines[i])
  {
    StrippedLines(lines);
    RStripPrefix(lines[|lines| - 1]);
  }

  lemma {:induction false} SameTailRefs(r: Runtime, lines: seq<string>)
    requires lines != [] && AllFree(lines, NEWLINE) && (|lines| > 1 ==> RStrip(lines[|lines| - 1]) != "")
    ensures LineRefs(r, Lines(RStrip(Join(lines, "\n") + "\n"))[1..]) == LineRefs(r, lines[1..])
  {
    StrippedWords(lines);
    SameWordsSameRefs(r, Lines(RStrip(Join(lines, "\n") + "\n"))[1..], lines[1..]);
  }

  lemma {:induction false} LastEntryShows(r: Runtime, entries: seq<Entry>)
    requires ValidEntries(r, entries) && entries != []
    ensures |EntryTexts(r, entries)| == |entries|
    ensures RStrip(EntryTexts(r, entries)[|entries| - 1]) != ""
  {
    EntryTextsAt(r, entries);
    EntryWords(r, entries[|entries| - 1]);
  }

  lemma {:induction false} ListingLines(r: Runtime, header: string, entries: seq<Entry>)
    requires Free(header, NEWLINE) && ValidEntries(r, entries)
    ensures var lines := [header] + EntryTexts(r, entries);
            AllFree(lines, NEWLINE) && (|lines| > 1 ==> RStrip(lines[|lines| - 1]) != "")
  {
    EntryTextsFree(r, entries);
    if entries != [] {
      LastEntryShows(r, entries);
    }
  }

  /** Both runtimes read back the references in their store. */
  lemma {:induction false} ListingReadBack(r: Runtime, header: string, entries: seq<Entry>)
    requires Free(header, NEWLINE) && ValidEntries(r, entries)
    ensures LocalImages(r, ListingText(r, header, entries)) == Ok(EntryRefs(entries))
  {
    ListingLines(r, header, entries);
    SameTailRefs(r, [header] + EntryTexts(r, entries));
    EntryLines(r, entries);
    assert ([header] + EntryTexts(r, entries))[1..] == EntryTexts(r, entries);
  }

  // ---- Pulling

  /** The image reference names a tag: there is a colon after its last slash. */
  predicate Tagged(image: string) {
    ':' in KubeRuntime.LastOf(Split(image, {'/'}))
  }

  /** What a pull puts in the store: docker adds the default tag. */
  function Stored(r: Runtime, image: string): string {
    if r.Docker? && !Tagged(image) then image + ":latest" else image
  }

  /** The images one call pulls: those its one listing does not show. */
  function Pulled(store: set<string>, requested: seq<string>): seq<string> {
    if requested == [] then []
    else
      var before, image := Pulled(store, requested[..|requested| - 1]), requested[|requested| - 1];
      if image in store then before else before + [image]
  }

  function AfterPull(r: Runtime, store: set<string>, requested: seq<string>): set<string> {
    store + set image | image in Pulled(store, requested) :: Stored(r, image)
  }

  lemma {:induction false} PulledIsMissing(store: set<string>, requested: seq<string>)
    ensures forall image :: image in Pulled(store, requested) <==> image in requested && image !in store
    ensures Pulled(store, requested) == [] <==> forall image :: image in requested ==> image in store
  {
    if requested != [] {
      var shorter := requested[..|requested| - 1];
      PulledIsMissing(store, shorter);
      assert requested == shorter + [requested[|requested| - 1]];
    }
  }

  predicate AllTagged(requested: seq<string>) {
    forall image :: image in requested ==> Tagged(image)
  }

  lemma {:induction false} PullStep(r: Runtime, store: set<string>, requested: seq<string>, i: nat)
    requires i < |requested|
    ensures Pulled(store, requested[..i + 1]) ==
            if requested[i] in store then Pulled(store, requested[..i]) else Pulled(store, requested[..i]) + [requested[i]]
    ensures AfterPull(r, store, requested[..i + 1]) ==
            AfterPull(r, store, requested[..i]) + if requested[i] in store then {} else {Stored(r, requested[i])}
  {
    assert requested[..i + 1][..i] == requested[..i];
  }

  /** One specification for both runtimes: the store grows by the request, and something is pulled iff something was missing. */
  lemma {:induction false} PullRefines(r: Runtime, store: set<string>, requested: seq<string>)
    requires r.Containerd? || AllTagged(requested)
    ensures AfterPull(r, store, requested) == store + set image | image in requested
    ensures Pulled(store, requested) != [] <==> exists image :: image in requested && image !in store
  {
    PulledIsMissing(store, requested);
    if image :| image in requested && image !in store {
      assert image in Pulled(store, requested);
    }
    if Pulled(store, requested) != [] {
      assert Pulled(store, requested)[0] in requested;
    }
  }

  /** The pieces with `b` put after the last one. */
  function Grown(parts: seq<string>, b: string): seq<string>
    requires parts != []
  {
    parts[..|parts| - 1] + [parts[|parts| - 1] + b]
  }

  lemma {:induction false} GrownHead(x: char, parts: seq<string>, b: string)
    requires parts != []
    ensures [[x] + Grown(parts, b)[0]] + Grown(parts, b)[1..] == Grown([[x] + parts[0]] + parts[1..], b)
    ensures [""] + Grown(parts, b) == Grown([""] + parts, b)
  {
    if |parts| == 1 {
      assert [x] + (parts[0] + b) == [x] + parts[0] + b;
    }
  }

  lemma {:induction false} LastPieceGrows(a: string, b: string, seps: set<char>)
    requires Free(b, seps)
    ensures Split(a + b, seps) == Grown(Split(a, seps), b)
  {
    if a == "" {
      assert a + b == b;
      SplitFree(b, seps);
    } else {
      assert (a + b)[1..] == a[1..] + b && (a + b)[0] == a[0];
      LastPieceGrows(a[1..], b, seps);
      GrownHead(a[0], Split(a[1..], seps), b);
    }
  }

  /** Whatever docker is asked to pull, what it stores has a tag. */
  lemma {:induction false} StoredIsTagged(image: string)
    ensures Tagged(Stored(Docker, image))
  {
    if !Tagged(image) {
      LastPieceGrows(image, ":latest", {'/'});
    }
  }

  /** A second call pulls nothing exactly when the runtime is containerd or every image that was missing has a tag. */
  lemma {:induction false} SecondCallPullsNothingIff(r: Runtime, store: set<string>, requested: seq<string>)
    ensures Pulled(AfterPull(r, store, requested), requested) == [] <==>
            r.Containerd? || forall image :: image in requested && image !in store ==> Tagged(image)
  {
    var later := AfterPull(r, store, requested);
    PulledIsMissing(store, requested);
    PulledIsMissing(later, requested);
    forall image | image in requested
      ensures image !in later <==> image !in store && r.Docker? && !Tagged(image)
    {
      if image !in store {
        assert image in Pulled(store, requested);
        assert Stored(r, image) in later;
      }
      if r.Docker? && !Tagged(image) && image !in store {
        forall other: string
          ensures Stored(Docker, other) != image
        {
          StoredIsTagged(other);
        }
      }
    }
    if Pulled(later, requested) != [] {
      assert Pulled(later, requested)[0] in requested;
    }
  }

  /** The store after `n` calls for the same images. */
  function AfterPulls(r: Runtime, store: set<string>, requested: seq<string>, n: nat): set<string> {
    if n == 0 then store else AfterPull(r, AfterPulls(r, store, requested, n - 1), requested)
  }

  lemma {:induction false} StillMissing(store: set<string>, requested: seq<string>, image: string)
    requires !Tagged(image) && image !in store
    ensures image !in AfterPull(Docker, store, requested)
  {
    forall other: string
      ensures Stored(Docker, other) != image
    {
      StoredIsTagged(other);
    }
  }

  lemma {:induction false} NeverThere(store: set<string>, requested: seq<string>, image: string, n: nat)
    requires !Tagged(image) && image !in store
    ensures image !in AfterPulls(Docker, store, requested, n)
  {
    if n > 0 {
      NeverThere(store, requested, image, n - 1);
      StillMissing(AfterPulls(Docker, store, requested, n - 1), requested, image);
    }
  }

  /** An untagged image that docker does not have is pulled by every call, however often it was pulled before. */
  lemma {:induction false} UntaggedPullsForever(store: set<string>, requested: seq<string>, image: string, n: nat)
    requires !Tagged(image) && image in requested && image !in store
    ensures image in Pulled(AfterPulls(Docker, store, requested, n), requested)
  {
    NeverThere(store, requested, image, n);
    PulledIsMissing(AfterPulls(Docker, store, requested, n), requested);
  }

  function Occurrences(s: seq<string>, x: string): nat {
    multiset(s)[x]
  }

  lemma {:induction false} PulledOnce(store: set<string>, requested: seq<string>, image: string)
    requires Distinct(requested)
    ensures Occurrences(Pulled(store, requested), image) == if image in requested && image !in store then 1 else 0
  {
    if requested != [] {
      var shorter, last := requested[..|requested| - 1], requested[|requested| - 1];
      PulledOnce(store, shorter, image);
      assert requested == shorter + [last];
      assert last !in shorter;
    }
  }

  /** The pull task's loop on one host: one call for each group list the host is in. */
  function LoopPulls(r: Runtime, store: set<string>, lists: seq<seq<string>>): seq<string>
    decreases |lists|
  {
    if lists == [] then []
    else Pulled(store, lists[0]) + LoopPulls(r, AfterPull(r, store, lists[0]), lists[1..])
  }

  function LoopStore(r: Runtime, store: set<string>, lists: seq<seq<string>>): set<string>
    decreases |lists|
  {
    if lists == [] then store else LoopStore(r, AfterPull(r, store, lists[0]), lists[1..])
  }

  predicate Requested(lists: seq<seq<string>>, image: string) {
    exists i :: 0 <= i < |lists| && image in lists[i]
  }

  /** Whatever the order of the loop, every missing image is pulled exactly once and no other image is pulled. */
  lemma {:induction false} LoopPullsEachMissingOnce(r: Runtime, store: set<string>, lists: seq<seq<string>>, image: string)
    requires forall i :: 0 <= i < |lists| ==> Distinct(lists[i]) && (r.Containerd? || AllTagged(lists[i]))
    ensures Occurrences(LoopPulls(r, store, lists), image) == if Requested(lists, image) && image !in store then 1 else 0
    ensures image in LoopStore(r, store, lists) <==> image in store || Requested(lists, image)
    decreases |lists|
  {
    if lists != [] {
      var later, rest := AfterPull(r, store, lists[0]), lists[1..];
      PulledOnce(store, lists[0], image);
      PullRefines(r, store, lists[0]);
      LoopPullsEachMissingOnce(r, later, rest, image);
      assert Requested(lists, image) <==> image in lists[0] || Requested(rest, image) by {
        if Requested(rest, image) {
          var i :| 0 <= i < |rest| && image in rest[i];
          assert image in lists[i + 1];
        }
        if Requested(lists, image) && image !in lists[0] {
          var i :| 0 <= i < |lists| && image in lists[i];
          assert image in rest[i - 1];
        }
      }
    }
  }

  lemma {:induction false} SamePulls(r: Runtime, store: set<string>, a: seq<seq<string>>, b: seq<seq<string>>)
    requires forall i :: 0 <= i < |a| ==> Distinct(a[i]) && (r.Containerd? || AllTagged(a[i]))
    requires forall i :: 0 <= i < |b| ==> Distinct(b[i]) && (r.Containerd? || AllTagged(b[i]))
    requires forall image :: Requested(a, image) <==> Requested(b, image)
    ensures LoopStore(r, store, a) == LoopStore(r, store, b)
    ensures multiset(LoopPulls(r, store, a)) == multiset(LoopPulls(r, store, b))
  {
    var pa, pb := LoopPulls(r, store, a), LoopPulls(r, store, b);
    forall image: string
      ensures multiset(pa)[image] == multiset(pb)[image]
      ensures image in LoopStore(r, store, a) <==> image in LoopStore(r, store, b)
    {
      LoopPullsEachMissingOnce(r, store, a, image);
      LoopPullsEachMissingOnce(r, store, b, image);
      assert Occurrences(pa, image) == Occurrences(pb, image);
    }
  }

  lemma {:induction false} RequestedInBoth(a: seq<seq<string>>, b: seq<seq<string>>, image: string)
    requires multiset(a) == multiset(b) && Requested(a, image)
    ensures Requested(b, image)
  {
    var i :| 0 <= i < |a| && image in a[i];
    assert a[i] in multiset(b);
    var j :| 0 <= j < |b| && b[j] == a[i];
    assert image in b[j];
  }

  /** So no order of the lists changes the store or what is pulled. */
  lemma {:induction false} LoopOrderIsIrrelevant(r: Runtime, store: set<string>, a: seq<seq<string>>, b: seq<seq<string>>)
    requires multiset(a) == multiset(b)
    requires forall i :: 0 <= i < |a| ==> Distinct(a[i]) && (r.Containerd? || AllTagged(a[i]))
    ensures LoopStore(r, store, a) == LoopStore(r, store, b)
    ensures multiset(LoopPulls(r, store, a)) == multiset(LoopPulls(r, store, b))
  {
    forall image
      ensures Requested(a, image) <==> Requested(b, image)
    {
      if Requested(a, image) {
        RequestedInBoth(a, b, image);
      }
      if Requested(b, image) {
        RequestedInBoth(b, a, image);
      }
    }
    forall j | 0 <= j < |b|
      ensures Distinct(b[j]) && (r.Containerd? || AllTagged(b[j]))
    {
      assert b[j] in multiset(a);
      var i :| 0 <= i < |a| && a[i] == b[j];
    }
    SamePulls(r, store, a, b);
  }

  // ---- The module

  /** A host's image store, listed by its runtime in some order. */
  class Host {
    const runtime: Runtime
    const header: string
    var entries: seq<Entry>
    var pulls: seq<string>

    constructor (runtime: Runtime, header: string, entries: seq<Entry>)
      ensures this.runtime == runtime && this.header == header && this.entries == entries && pulls == []
    {
      this.runtime, this.header, this.entries, pulls := runtime, header, entries, [];
    }

    function Store(): set<string>
      reads this
    {
      set ref | ref in EntryRefs(entries)
    }

    method List() returns (stdout: string)
      ensures stdout == ListingText(runtime, header, entries)
    {
      stdout := ListingText(runtime, header, entries);
    }

    /** The runtime stores the image under its repository and tag. */
    method Pull(image: string)
      modifies this
      ensures pulls == old(pulls) + [image]
      ensures Store() == old(Store()) + {Stored(runtime, image)}
    {
      var entry := EntryFor(Stored(runtime, image));
      RefsAppend(entries, entry);
      entries, pulls := entries + [entry], pulls + [image];
    }
  }

  lemma {:induction false} RefsAppend(entries: seq<Entry>, e: Entry)
    ensures EntryRefs(entries + [e]) == EntryRefs(entries) + [EntryRef(e)]
  {
    if entries != [] {
      assert (entries + [e])[1..] == entries[1..] + [e];
      RefsAppend(entries[1..], e);
    } else {
      assert ([] + [e])[1..] == [];
    }
  }

  /** Position of the last colon. */
  function TagColon(ref: string): (i: nat)
    requires ':' in ref
    ensures i < |ref| && ref[i] == ':'
  {
    if ref[|ref| - 1] == ':' then |ref| - 1 else TagColon(ref[..|ref| - 1])
  }

  /** The entry of a reference, cut at its last colon if it has one. */
  function EntryFor(ref: string): (e: Entry)
    ensures EntryRef(e) == ref
  {
    if ':' !in ref then Entry(ref, " ", None, "")
    else
      var i := TagColon(ref);
      assert ref == ref[..i] + ":" + ref[i + 1..];
      Entry(ref[..i], " ", Some(ref[i + 1..]), "")
  }

  class RuntimeWorker {
    const host: Host
    const image: seq<string>
    var changed: bool
    var imagesMap: Option<KubeRuntime.ImagesMap>

    constructor (host: Host, image: seq<string>)
      ensures this.host == host && this.image == image && !changed && imagesMap == None
    {
      this.host, this.image, changed, imagesMap := host, image, false, None;
    }

    /** `get_image`: appends every listed image to the lists its name belongs to. */
    method GetImage(stdout: string)
      modifies this`imagesMap
      ensures imagesMap == Some(KubeRuntime.Classified(Words(RStrip(stdout))))
    {
      var images := Words(RStrip(stdout));
      var m := KubeRuntime.ImagesMap([], [], [], []);
      for i := 0 to |images|
        invariant m == KubeRuntime.Classified(images[..i])
      {
        KubeRuntime.SelectStep(images, i, KubeRuntime.MASTER_IMAGES);
        KubeRuntime.SelectStep(images, i, KubeRuntime.NODE_IMAGES);
        m := AddImage(m, images[i], KubeRuntime.MASTER_IMAGES, KubeRuntime.NODE_IMAGES);
      }
      assert images[..|images|] == images;
      imagesMap := Some(m);
    }

    method AddImage(m: KubeRuntime.ImagesMap, image: string, masterImages: set<string>, nodeImages: set<string>)
      returns (r: KubeRuntime.ImagesMap)
      ensures var name := KubeRuntime.NameOf(image);
              && r.dockerMaster == (if name in masterImages then m.dockerMaster + [image] else m.dockerMaster)
              && r.containerdMaster == (if name in masterImages then m.containerdMaster + [image] else m.containerdMaster)
              && r.dockerNode == (if name in nodeImages then m.dockerNode + [image] else m.dockerNode)
              && r.containerdNode == (if name in nodeImages then m.containerdNode + [image] else m.containerdNode)
    {
      r := m;
      var imageRepo := Split(image, {':'})[0];
      var parts := Split(imageRepo, {'/'});
      var imageName := parts[|parts| - 1];
      if imageName in masterImages {
        r := r.(dockerMaster := r.dockerMaster + [image], containerdMaster := r.containerdMaster + [image]);
      }
      if imageName in nodeImages {
        r := r.(dockerNode := r.dockerNode + [image], containerdNode := r.containerdNode + [image]);
      }
    }

    method GetLocalImages() returns (r: Result<seq<string>>)
      ensures r == LocalImages(host.runtime, ListingText(host.runtime, host.header, host.entries))
      ensures Free(host.header, NEWLINE) && ValidEntries(host.runtime, host.entries) ==> r == Ok(EntryRefs(host.entries))
    {
      var stdout := host.List();
      var lines := Split(RStrip(stdout), NEWLINE)[1..];
      r := LineRefs(host.runtime, lines);
      if Free(host.header, NEWLINE) && ValidEntries(host.runtime, host.entries) {
        ListingReadBack(host.runtime, host.header, host.entries);
      }
    }

    /** `pull_image`: one listing, then one pull for each requested image it does not show. */
    method PullImage() returns (r: Result<()>)
      requires Free(host.header, NEWLINE) && ValidEntries(host.runtime, host.entries)
      modifies this`changed, host
      ensures r.Ok?
      ensures host.pulls == old(host.pulls) + Pulled(old(host.Store()), image)
      ensures host.Store() == AfterPull(host.runtime, old(host.Store()), image)
      ensures changed == (old(changed) || Pulled(old(host.Store()), image) != [])
    {
      var local := GetLocalImages();
      PullMissing(local.value);
      return Ok(());
    }

    method PullMissing(localImages: seq<string>)
      requires forall ref :: ref in localImages <==> ref in host.Store()
      modifies this`changed, host
      ensures host.pulls == old(host.pulls) + Pulled(old(host.Store()), image)
      ensures host.Store() == AfterPull(host.runtime, old(host.Store()), image)
      ensures changed == (old(changed) || Pulled(old(host.Store()), image) != [])
    {
      ghost var store := host.Store();
      ghost var done := [];
      NothingPulled(host.runtime, store);
      for i := 0 to |image|
        invariant done == Pulled(store, image[..i]) && host.pulls == old(host.pulls) + done
        invariant host.Store() == AfterPull(host.runtime, store, image[..i])
        invariant changed == (old(changed) || done != [])
      {
        PullStep(host.runtime, store, image, i);
        if image[i] !in localImages {
          host.Pull(image[i]);
          done := done + [image[i]];
          changed := true;
        }
      }
      assert image[..|image|] == image;
    }
  }

  lemma {:induction false} NothingPulled(r: Runtime, store: set<string>)
    ensures Pulled(store, []) == [] && AfterPull(r, store, []) == store
  {
  }
}
