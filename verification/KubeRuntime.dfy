/** ansible/library/kube_runtime.py: sorting kubeadm's image list by host group, and pulling what a host lacks. */
module KubeRuntime {
  import opened Text

  const MASTER_IMAGES: set<string> :=
    {"kube-apiserver", "kube-controller-manager", "kube-scheduler", "etcd", "coredns", "kube-proxy", "pause"}
  const NODE_IMAGES: set<string> := {"coredns", "kube-proxy", "pause"}

  // ---- Classification

  datatype ImagesMap = ImagesMap(dockerMaster: seq<string>, containerdMaster: seq<string>,
                                 dockerNode: seq<string>, containerdNode: seq<string>)

  function LastOf(parts: seq<string>): string
    requires parts != []
  {
    parts[|parts| - 1]
  }

  /** `image.split(':')[0].split('/')[-1]` */
  function NameOf(image: string): string {
    LastOf(Split(Split(image, {':'})[0], {'/'}))
  }

  /** The order-preserving selection of the images with one of the names. */
  function Select(images: seq<string>, names: set<string>): seq<string> {
    if images == [] then []
    else
      var before, image := Select(images[..|images| - 1], names), images[|images| - 1];
      if NameOf(image) in names then before + [image] else before
  }

  lemma {:induction false} SelectStep(images: seq<string>, i: nat, names: set<string>)
    requires i < |images|
    ensures Select(images[..i + 1], names) ==
            if NameOf(images[i]) in names then Select(images[..i], names) + [images[i]] else Select(images[..i], names)
  {
    assert images[..i + 1][..i] == images[..i];
  }

  function Classified(images: seq<string>): ImagesMap {
    var masters, nodes := Select(images, MASTER_IMAGES), Select(images, NODE_IMAGES);
    ImagesMap(masters, masters, nodes, nodes)
  }

  /** An entry of the list kubeadm prints. */
  datatype Image = Image(repo: string, name: string, tag: string)

  function Ref(i: Image): string {
    i.repo + ['/'] + (i.name + [':'] + i.tag)
  }

  predicate ValidImage(i: Image) {
    Word(Ref(i)) && Free(i.name, {':', '/'})
  }

  lemma {:induction false} SplitHeadAt(a: string, c: char, b: string)
    requires Free(a, {c})
    ensures Split(a + [c] + b, {c})[0] == a
  {
    SplitAt(a, c, b, {c});
    SplitFree(a, {c});
  }

  lemma {:induction false} SplitLastAt(a: string, c: char, b: string)
    requires Free(b, {c})
    ensures LastOf(Split(a + [c] + b, {c})) == b
  {
    SplitAt(a, c, b, {c});
    SplitFree(b, {c});
  }

  lemma {:induction false} SplitHeadPrefix(a: string, b: string, c: char)
    requires !Free(a, {c})
    ensures Split(a + b, {c})[0] == Split(a, {c})[0]
  {
    assert a != "";
    assert (a + b)[1..] == a[1..] + b;
    if a[0] != c {
      SplitHeadPrefix(a[1..], b, c);
    }
  }

  /** The name is recovered exactly when the repository has no colon, or the part before its colon ends in that name. */
  lemma {:induction false} NameRecoveredIff(i: Image)
    requires ValidImage(i)
    ensures NameOf(Ref(i)) == i.name <==>
            Free(i.repo, {':'}) || LastOf(Split(Split(i.repo, {':'})[0], {'/'})) == i.name
  {
    var path := i.repo + ['/'] + i.name;
    assert Ref(i) == path + [':'] + i.tag;
    if Free(i.repo, {':'}) {
      SplitHeadAt(path, ':', i.tag);
      SplitLastAt(i.repo, '/', i.name);
    } else {
      SplitHeadPrefix(i.repo, ['/'] + (i.name + [':'] + i.tag), ':');
      assert Ref(i) == i.repo + (['/'] + (i.name + [':'] + i.tag));
    }
  }

  function Refs(listing: seq<Image>): seq<string> {
    if listing == [] then [] else Refs(listing[..|listing| - 1]) + [Ref(listing[|listing| - 1])]
  }

  /** The references of the listed images with one of the names, in listing order. */
  function Wanted(listing: seq<Image>, names: set<string>): seq<string> {
    if listing == [] then []
    else
      var before, i := Wanted(listing[..|listing| - 1], names), listing[|listing| - 1];
      if i.name in names then before + [Ref(i)] else before
  }

  predicate PlainListing(listing: seq<Image>) {
    forall k :: 0 <= k < |listing| ==> ValidImage(listing[k]) && Free(listing[k].repo, {':'})
  }

  lemma {:induction false} SelectListing(listing: seq<Image>, names: set<string>)
    requires PlainListing(listing)
    ensures Select(Refs(listing), names) == Wanted(listing, names)
  {
    if listing != [] {
      var shorter, i := listing[..|listing| - 1], listing[|listing| - 1];
      SelectListing(shorter, names);
      NameRecoveredIff(i);
      assert Refs(listing)[..|Refs(listing)| - 1] == Refs(shorter);
    }
  }

  lemma {:induction false} RefsAreWords(listing: seq<Image>)
    requires forall k :: 0 <= k < |listing| ==> ValidImage(listing[k])
    ensures forall k :: 0 <= k < |Refs(listing)| ==> Word(Refs(listing)[k])
  {
    if listing != [] {
      RefsAreWords(listing[..|listing| - 1]);
    }
  }

  lemma {:induction false} WordsOfLines(parts: seq<string>)
    requires forall k :: 0 <= k < |parts| ==> Word(parts[k])
    ensures Words(Join(parts, "\n")) == parts
  {
    if parts == [] {
      WordsOfFree("");
    } else {
      WordsOfFree(parts[0]);
      if |parts| > 1 {
        WordsOfLines(parts[1..]);
        WordsAt(parts[0], '\n', Join(parts[1..], "\n"));
        assert parts == [parts[0]] + parts[1..];
      }
    }
  }

  predicate Subsequence(a: seq<string>, b: seq<string>)
    decreases |b|
  {
    if a == [] then true
    else if b == [] then false
    else if a[|a| - 1] == b[|b| - 1] && Subsequence(a[..|a| - 1], b[..|b| - 1]) then true
    else Subsequence(a, b[..|b| - 1])
  }

  lemma {:induction false} SelectFewer(images: seq<string>, fewer: set<string>, more: set<string>)
    requires fewer <= more
    ensures Subsequence(Select(images, fewer), Select(images, more))
  {
    if images != [] {
      var shorter, image := images[..|images| - 1], images[|images| - 1];
      SelectFewer(shorter, fewer, more);
      var a, b := Select(shorter, fewer), Select(shorter, more);
      if NameOf(image) in fewer {
        assert (a + [image])[..|a|] == a && (b + [image])[..|b|] == b;
      } else if NameOf(image) in more {
        assert (b + [image])[..|b|] == b;
      }
    }
  }

  /**
   For every listing with colon-free repositories, each group gets the selection of the listing by true name, in
   order; the lists do not depend on the runtime, and node lists are subsequences of master lists.
   */
  lemma {:induction false} ClassifiesByName(listing: seq<Image>)
    requires PlainListing(listing)
    ensures var m := Classified(Words(Join(Refs(listing), "\n")));
            && m.dockerMaster == m.containerdMaster == Wanted(listing, MASTER_IMAGES)
            && m.dockerNode == m.containerdNode == Wanted(listing, NODE_IMAGES)
            && Subsequence(m.dockerNode, m.dockerMaster)
  {
    RefsAreWords(listing);
    WordsOfLines(Refs(listing));
    SelectListing(listing, MASTER_IMAGES);
    SelectListing(listing, NODE_IMAGES);
    SelectFewer(Refs(listing), NODE_IMAGES, MASTER_IMAGES);
  }

  /** A registry with a port loses the image for every group, unless the host itself is named like an image. */
  lemma {:induction false} PortLosesImage(host: string, port: string, rest: string, names: set<string>)
    requires Free(host, {':', '/'}) && host !in names
    ensures Select([host + ":" + port + "/" + rest], names) == []
  {
    var image := host + [':'] + (port + "/" + rest);
    assert image == host + ":" + port + "/" + rest;
    SplitHeadAt(host, ':', port + "/" + rest);
    SplitFree(host, {'/'});
    assert [image][..0] == [];
  }
}
