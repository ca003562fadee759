/** The projects section (components/Projects.tsx): the category filter,
    what a project card shows (at most three technologies and a `+k`
    badge, or an image fallback), and the selected-project modal.

    The project list itself is static data and is a parameter here. */
module Projects {
  import opened JsValues

  const MaxShownTechnologies := 3

  datatype Category = Freelance | Work | Personal

  /** The filter buttons: "All" or one category. */
  datatype CategoryChoice = All | Only(category: Category)

  /** A project's image: a path, or an imported image whose `src` is used. */
  datatype ImageRef = Path(path: string) | StaticImage(src: string)

  datatype Project = Project(
    id: string,
    name: string,
    image: ImageRef,
    technologies: seq<string>,
    category: Category)

  /** `projects.filter(p => p.category === c)`. */
  function OfCategory(ps: seq<Project>, c: Category): (r: seq<Project>)
    ensures |r| <= |ps|
    ensures forall k :: 0 <= k < |r| ==> r[k].category == c && r[k] in ps
    ensures forall p :: p in ps && p.category == c ==> p in r
  {
    if |ps| == 0 then []
    else if ps[0].category == c then [ps[0]] + OfCategory(ps[1..], c)
    else OfCategory(ps[1..], c)
  }

  /** `filteredProjects`: the whole list for "All", else the projects of
      the chosen category. */
  function FilteredProjects(ps: seq<Project>, choice: CategoryChoice): (r: seq<Project>)
    ensures choice.All? ==> r == ps
    ensures choice.Only? ==> forall p :: p in r <==> p in ps && p.category == choice.category
  {
    match choice
    case All => ps
    case Only(c) => OfCategory(ps, c)
  }

  /** The filter keeps relative order: filtering a concatenation is the
      concatenation of the filtered parts. */
  lemma {:induction false} OfCategoryAppend(a: seq<Project>, b: seq<Project>, c: Category)
    ensures OfCategory(a + b, c) == OfCategory(a, c) + OfCategory(b, c)
  {
    if |a| > 0 {
      assert (a + b)[1..] == a[1..] + b;
      OfCategoryAppend(a[1..], b, c);
    } else {
      assert a + b == b;
    }
  }

  /** The filter drops nothing of the chosen category and keeps nothing
      else, counting duplicates. */
  lemma {:induction false} OfCategoryCounts(ps: seq<Project>, c: Category, p: Project)
    ensures multiset(OfCategory(ps, c))[p] == if p.category == c then multiset(ps)[p] else 0
  {
    if |ps| > 0 {
      assert ps == [ps[0]] + ps[1..];
      OfCategoryCounts(ps[1..], c, p);
    }
  }

  /** `technologies.slice(0, 3)`: the technologies a card lists. */
  function ShownTechnologies(ts: seq<string>): (r: seq<string>)
    ensures |r| == if |ts| < MaxShownTechnologies then |ts| else MaxShownTechnologies
    ensures r == ts[..|r|]
  {
    if |ts| <= MaxShownTechnologies then ts else ts[..MaxShownTechnologies]
  }

  /** The `+k` badge: present when more than three technologies exist. */
  function OverflowCount(ts: seq<string>): (k: Option<nat>)
    ensures k.Some? <==> |ts| > MaxShownTechnologies
    ensures k.Some? ==> k.value > 0 && k.value == |ts| - MaxShownTechnologies
  {
    if |ts| > MaxShownTechnologies then Some(|ts| - MaxShownTechnologies) else None
  }

  /** The listed technologies and the badge together account for every
      technology: the listed ones are a prefix, and the badge counts the
      rest. */
  lemma TechnologiesAccounted(ts: seq<string>)
    ensures var shown := ShownTechnologies(ts);
            shown + ts[|shown|..] == ts &&
            |shown| + (match OverflowCount(ts) case Some(k) => k case None => 0) == |ts|
  {
  }

  /** `getImageSrc`. */
  function ImageSrc(image: ImageRef): (src: string)
    ensures image.Path? ==> src == image.path
    ensures image.StaticImage? ==> src == image.src
  {
    match image
    case Path(p) => p
    case StaticImage(s) => s
  }

  /** `!(imageSrc && !imageError)`: the placeholder is shown instead of
      the image. */
  predicate ShowsFallback(src: string, imageError: bool): (fallback: bool)
    ensures !fallback <==> src != "" && !imageError
  {
    src == "" || imageError
  }

  /** What a project card renders. */
  datatype CardView = CardView(showsFallback: bool, technologies: seq<string>, overflow: Option<nat>)

  function Card(p: Project, imageError: bool): (v: CardView)
    ensures v.showsFallback <==> ImageSrc(p.image) == "" || imageError
    ensures |v.technologies| <= MaxShownTechnologies && |v.technologies| <= |p.technologies|
    ensures v.technologies == p.technologies[..|v.technologies|]
    ensures v.overflow.Some? <==> |p.technologies| > MaxShownTechnologies
    ensures v.overflow.Some? ==> |v.technologies| + v.overflow.value == |p.technologies|
    ensures |v.technologies| == if |p.technologies| < MaxShownTechnologies then |p.technologies| else MaxShownTechnologies
    ensures v.overflow.Some? ==> v.overflow.value == |p.technologies| - MaxShownTechnologies
  {
    CardView(ShowsFallback(ImageSrc(p.image), imageError), ShownTechnologies(p.technologies), OverflowCount(p.technologies))
  }

  /** What the modal renders: nothing without a selected project. */
  datatype ModalView = ModalView(project: Project, showsFallback: bool)

  function Modal(selected: Option<Project>, imageError: bool): (v: Option<ModalView>)
    ensures v.None? <==> selected.None?
    ensures v.Some? ==> v.value.project == selected.value
    ensures v.Some? ==> (v.value.showsFallback <==> ImageSrc(selected.value.image) == "" || imageError)
  {
    match selected
    case None => None
    case Some(p) => Some(ModalView(p, ShowsFallback(ImageSrc(p.image), imageError)))
  }

  /** The section's state. `modalImageError` is the modal's own
      `imageError`: the modal component stays mounted while no project is
      selected, so once set it stays set for every project opened later. */
  class ProjectsView {
    var activeCategory: CategoryChoice
    var selectedProject: Option<Project>
    var modalImageError: bool

    constructor ()
      ensures activeCategory == All && selectedProject == None && !modalImageError
    {
      activeCategory := All;
      selectedProject := None;
      modalImageError := false;
    }

    /** A filter button's click. */
    method SelectCategory(choice: CategoryChoice)
      modifies this
      ensures activeCategory == choice
      ensures selectedProject == old(selectedProject) && modalImageError == old(modalImageError)
    {
      activeCategory := choice;
    }

    /** A card's click. */
    method OpenProject(p: Project)
      modifies this
      ensures selectedProject == Some(p)
      ensures activeCategory == old(activeCategory) && modalImageError == old(modalImageError)
    {
      selectedProject := Some(p);
    }

    /** The modal's close button and its backdrop. */
    method Close()
      modifies this
      ensures selectedProject == None && Modal(selectedProject, modalImageError).None?
      ensures activeCategory == old(activeCategory) && modalImageError == old(modalImageError)
    {
      selectedProject := None;
    }

    /** A key press; the Escape listener is registered only while a
        project is selected. */
    method HandleKeyDown(key: string)
      modifies this
      ensures key == "Escape" ==> selectedProject == None
      ensures key != "Escape" ==> selectedProject == old(selectedProject)
      ensures activeCategory == old(activeCategory) && modalImageError == old(modalImageError)
    {
      if selectedProject.Some? && key == "Escape" {
        selectedProject := None;
      }
    }

    /** The modal image's `onError`. */
    method ModalImageFailed()
      modifies this
      ensures modalImageError
      ensures selectedProject == old(selectedProject) && activeCategory == old(activeCategory)
    {
      modalImageError := true;
    }
  }

  /** One card's `imageError` state; a card starts without an error. */
  class CardImage {
    var imageError: bool

    constructor ()
      ensures !imageError
    {
      imageError := false;
    }

    /** The card image's `onError`: from now on the card shows the fallback. */
    method OnError(p: Project)
      modifies this
      ensures imageError && Card(p, imageError).showsFallback
    {
      imageError := true;
    }
  }
}
