/** The "trusted by" section: the image carousel of each project card (its index
    arithmetic and the index it holds), the five projects shown, the images a card
    passes to its carousel, and the icon of each project type. */
module TrustedBy {
  import opened Seqs
  import Projects

  /** `(i + 1) % n`. Both operands are non-negative, so JavaScript's `%` agrees with Dafny's. */
  function Next(i: nat, n: nat): (r: nat)
    requires n > 0
    ensures r < n
    ensures i < n - 1 ==> r == i + 1
    ensures i == n - 1 ==> r == 0
  {
    (i + 1) % n
  }

  /** `(i - 1 + n) % n`. */
  function Prev(i: nat, n: nat): (r: nat)
    requires n > 0 && i < n
    ensures r < n
    ensures 0 < i ==> r == i - 1
    ensures i == 0 ==> r == n - 1
  {
    (i - 1 + n) % n
  }

  /** Stepping back undoes stepping forward, and the other way round. */
  lemma PrevNextInverse(i: nat, n: nat)
    requires n > 0 && i < n
    ensures Prev(Next(i, n), n) == i
    ensures Next(Prev(i, n), n) == i
  {
  }

  /** `k` autoplay steps from `i`. */
  function Steps(i: nat, k: nat, n: nat): (r: nat)
    requires n > 0 && i < n
    ensures r < n
  {
    if k == 0 then i else Next(Steps(i, k - 1, n), n)
  }

  /** Within one round, `k` steps move the index `k` places forward, wrapping once
      past the last image. */
  lemma {:induction false} StepsAdvance(i: nat, k: nat, n: nat)
    requires n > 0 && i < n && k <= n
    ensures Steps(i, k, n) == if i + k < n then i + k else i + k - n
  {
    if k > 0 {
      StepsAdvance(i, k - 1, n);
    }
  }

  /** `n` autoplay steps bring the carousel back to the image it started on. */
  lemma FullCycle(i: nat, n: nat)
    requires n > 0 && i < n
    ensures Steps(i, n, n) == i
  {
    StepsAdvance(i, n, n);
  }

  /** The carousel of one card: its images and the index of the one shown. */
  class ImageCarousel {
    const images: seq<string>
    var currentIndex: nat

    predicate Valid()
      reads this
    {
      currentIndex == 0 || currentIndex < |images|
    }

    constructor (images: seq<string>)
      ensures this.images == images && currentIndex == 0 && Valid()
    {
      this.images := images;
      currentIndex := 0;
    }

    /** The image on show; an empty carousel renders nothing. */
    function Shown(): (r: Option<string>)
      requires Valid()
      reads this
      ensures r.None? <==> images == []
      ensures r.Some? ==> r.value in images
      ensures images != [] ==> r == Some(images[currentIndex])
    {
      if |images| == 0 then None else Some(images[currentIndex])
    }

    /** The "next" button, shown only with more than one image. */
    method NextImage()
      requires Valid() && |images| > 1
      modifies this
      ensures Valid() && currentIndex == Next(old(currentIndex), |images|)
    {
      currentIndex := (currentIndex + 1) % |images|;
    }

    /** The "previous" button, shown only with more than one image. */
    method PrevImage()
      requires Valid() && |images| > 1
      modifies this
      ensures Valid() && currentIndex == Prev(old(currentIndex), |images|)
    {
      currentIndex := (currentIndex - 1 + |images|) % |images|;
    }

    /** One tick of the four-second autoplay interval. */
    method Tick()
      requires Valid() && |images| > 0
      modifies this
      ensures Valid() && currentIndex == Next(old(currentIndex), |images|)
    {
      currentIndex := (currentIndex + 1) % |images|;
    }

    /** A dot of the indicator, one per image. */
    method GoTo(index: nat)
      requires Valid() && index < |images|
      modifies this
      ensures Valid() && currentIndex == index
    {
      currentIndex := index;
    }
  }

  /** `n` ticks of autoplay on a carousel of `n` images show the starting image again. */
  method Autoplay(c: ImageCarousel, ticks: nat)
    requires c.Valid() && |c.images| > 0
    modifies c
    ensures c.Valid() && c.currentIndex == Steps(old(c.currentIndex), ticks, |c.images|)
    ensures ticks == |c.images| ==> c.currentIndex == old(c.currentIndex)
  {
    var start := c.currentIndex;
    for k := 0 to ticks
      invariant c.Valid() && c.currentIndex == Steps(start, k, |c.images|)
    {
      c.Tick();
    }
    if ticks == |c.images| {
      FullCycle(start, ticks);
    }
  }

  /** `projects.slice(0, 5)`: the first five projects, or all of them when fewer. */
  function TopProjects<T>(projects: seq<T>): (r: seq<T>)
    ensures |r| <= 5
    ensures |r| == if |projects| < 5 then |projects| else 5
    ensures r == projects[..|r|]
  {
    if |projects| <= 5 then projects else projects[..5]
  }

  /** `project.images || [project.image]`: a missing list becomes the single legacy
      image, while an empty list stays empty and the carousel renders nothing. */
  function CarouselImages(images: Option<seq<string>>, image: string): (r: seq<string>)
    ensures images.None? ==> r == [image]
    ensures images.Some? ==> r == images.value
  {
    match images
    case Some(list) => list
    case None => [image]
  }

  /** A project saved through validation and the image sync gives its carousel an
      image exactly when it had one in either field; one saved without any image
      (`image` never set) gives it an empty list, which renders nothing. */
  lemma SavedProjectHasCarousel(p: Projects.Project)
    requires Projects.Valid(p)
    ensures var shown := CarouselImages(Some(Projects.Sync(p).images), Projects.Sync(p).image.GetOr(""));
      |shown| > 0 <==> Projects.HasImage(p.image, p.images)
  {
    Projects.SavedPrimaryIsFirst(p);
  }

  datatype TypeIcon = Factory | HomeIcon | Building2 | MapPin

  /** `getIconForType`. */
  function IconForType(projectType: string): (r: TypeIcon)
    ensures projectType !in Projects.ProjectTypes ==> r == Building2
    ensures r == Factory <==> projectType == "Industrial"
    ensures r == HomeIcon <==> projectType == "Residential"
    ensures r == MapPin <==> projectType == "Infrastructure"
  {
    match projectType
    case "Industrial" => Factory
    case "Residential" => HomeIcon
    case "Commercial" => Building2
    case "Infrastructure" => MapPin
    case _ => Building2
  }
}
