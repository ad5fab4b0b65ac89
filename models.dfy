/**
 * The record shapes of the application (User, Movie, Review) and the
 * converters between them and the shapes the document store and the external
 * movie metadata use.
 */
module Models {
  import opened Wrappers
  import Decimal

  // ---------------------------------------------------------------------
  // Records
  // ---------------------------------------------------------------------

  datatype RatingSystem = Stars | Tierlist

  /** The names of tiers 1 to 7, worst first. */
  datatype TierlistNames = TierlistNames(
    tier1: string, tier2: string, tier3: string, tier4: string,
    tier5: string, tier6: string, tier7: string)

  datatype Preferences = Preferences(ratingSystem: RatingSystem, tierlistNames: TierlistNames)

  datatype User = User(
    uid: string, username: string, displayName: string, photoURL: string,
    preferences: Preferences, bio: string)

  datatype Movie = Movie(id: string, title: string, image: string)

  datatype Review = Review(
    id: string, author: string, movie: Movie, createdAt: int, rating: int, review: string)

  // ---------------------------------------------------------------------
  // Stored shapes
  // ---------------------------------------------------------------------

  /** The body of a document in the users collection: a User without its uid. */
  datatype UserData = UserData(
    displayName: string, username: string, photoURL: string,
    preferences: Preferences, bio: string)

  /** The movie snapshot stored inside a review document. */
  datatype MovieData = MovieData(title: string, image: string)

  /** The body of a review document; createdAt is the stored timestamp in
      milliseconds, absent when the document has none. */
  datatype ReviewData = ReviewData(
    movie: MovieData, rating: int, review: string, author: string, createdAt: Option<int>)

  /** A fetched document: its key, and its body when the document exists. */
  datatype DocumentSnapshot<T> = DocumentSnapshot(id: string, data: Option<T>)

  /** A document returned by a query: it always exists. */
  datatype QueryDocumentSnapshot<T> = QueryDocumentSnapshot(id: string, data: T)

  // ---------------------------------------------------------------------
  // Users
  // ---------------------------------------------------------------------

  /** The User held by a users document, or None when there is no such document;
      the uid is the document's key. */
  function UserFromFirestore(userDoc: DocumentSnapshot<UserData>): (r: Option<User>)
    ensures r.None? <==> userDoc.data.None?
    ensures r.Some? ==> r.value.uid == userDoc.id
  {
    match userDoc.data
    case None => None
    case Some(data) =>
      Some(User(userDoc.id, data.username, data.displayName, data.photoURL, data.preferences, data.bio))
  }

  /** The body stored for a user: every field but the uid. */
  function UserToFirestore(user: User): (r: UserData)
    ensures r.username == user.username && r.bio == user.bio
  {
    UserData(user.displayName, user.username, user.photoURL, user.preferences, user.bio)
  }

  /** Writing a user under its uid and reading it back gives the same user. */
  lemma UserRoundTrip(user: User)
    ensures UserFromFirestore(DocumentSnapshot(user.uid, Some(UserToFirestore(user)))) == Some(user)
  {
  }

  /** Reading a user and writing it back gives the same body. */
  lemma UserDataRoundTrip(userDoc: DocumentSnapshot<UserData>)
    requires userDoc.data.Some?
    ensures UserToFirestore(UserFromFirestore(userDoc).value) == userDoc.data.value
  {
  }

  /** The uid never reaches the stored body: two users that differ only in
      their uid are stored alike, and users stored alike differ at most in it. */
  lemma UserToFirestoreForgetsOnlyUid(u: User, v: User)
    ensures UserToFirestore(u) == UserToFirestore(v) <==> u.(uid := v.uid) == v
  {
  }

  // ---------------------------------------------------------------------
  // Reviews
  // ---------------------------------------------------------------------

  /** The creation time of a stored review: the timestamp's milliseconds, 0 when absent. */
  function CreatedAtMillis(createdAt: Option<int>): (ms: int)
    ensures createdAt.None? ==> ms == 0
    ensures createdAt.Some? ==> ms == createdAt.value
  {
    match createdAt
    case Some(t) => t
    case None => 0
  }

  /** The Review held by a review document; both the review's id and its
      movie's id are the document's key. */
  function ReviewFromFirestore(reviewDoc: QueryDocumentSnapshot<ReviewData>): (r: Review)
    ensures r.id == reviewDoc.id && r.movie.id == reviewDoc.id
    ensures r.createdAt == CreatedAtMillis(reviewDoc.data.createdAt)
  {
    var data := reviewDoc.data;
    Review(
      reviewDoc.id,
      data.author,
      Movie(reviewDoc.id, data.movie.title, data.movie.image),
      CreatedAtMillis(data.createdAt),
      data.rating,
      data.review)
  }

  /** The body stored for a review: the movie's title and image, the rating,
      the text and the author. */
  function ReviewToFirestore(review: Review): (r: ReviewData)
    ensures r.createdAt.None?
  {
    ReviewData(MovieData(review.movie.title, review.movie.image), review.rating, review.review, review.author, None)
  }

  /** Writing a review and reading it back keeps the movie's title and image,
      the rating, the text and the author; the id and the movie's id become the
      document's key and createdAt becomes 0. */
  lemma ReviewRoundTrip(review: Review, key: string)
    ensures ReviewFromFirestore(QueryDocumentSnapshot(key, ReviewToFirestore(review))) ==
      review.(id := key, movie := review.movie.(id := key), createdAt := 0)
  {
  }

  /** Reading a review and writing it back gives the stored body without its timestamp. */
  lemma ReviewDataRoundTrip(reviewDoc: QueryDocumentSnapshot<ReviewData>)
    ensures ReviewToFirestore(ReviewFromFirestore(reviewDoc)) == reviewDoc.data.(createdAt := None)
  {
  }

  /** The write path depends on exactly five fields: two reviews are stored alike
      if and only if they agree on the movie's title and image, the rating, the
      text and the author. */
  lemma ReviewToFirestoreKeepsFive(r: Review, s: Review)
    ensures ReviewToFirestore(r) == ReviewToFirestore(s) <==>
      (r.movie.title == s.movie.title && r.movie.image == s.movie.image &&
       r.rating == s.rating && r.review == s.review && r.author == s.author)
  {
  }

  /** A review that has been written once is stable: writing and reading it again under the same key changes nothing. */
  lemma ReviewRoundTripStable(review: Review, key: string)
    ensures var once := ReviewFromFirestore(QueryDocumentSnapshot(key, ReviewToFirestore(review)));
      ReviewFromFirestore(QueryDocumentSnapshot(key, ReviewToFirestore(once))) == once
  {
  }

  // ---------------------------------------------------------------------
  // Movies from the external metadata
  // ---------------------------------------------------------------------

  /** The metadata's id is a string or a number. */
  datatype MovieId = TextId(text: string) | NumberId(number: int)

  /** `${id}`: a string as it is, a number in decimal. */
  function RenderId(id: MovieId): (s: string)
    ensures id.TextId? ==> s == id.text
  {
    match id
    case TextId(t) => t
    case NumberId(n) => Decimal.RenderInt(n)
  }

  /** Two numeric ids render alike only when they are the same number. */
  lemma RenderNumberIdInjective(a: int, b: int)
    ensures RenderId(NumberId(a)) == RenderId(NumberId(b)) ==> a == b
  {
    Decimal.RenderIntInjective(a, b);
  }

  const ReferenceLanguage := "en"

  /** The title shown for a movie: the original title for English-language
      content, the localised title otherwise. */
  function ResolveTitle(language: string, originalTitle: string, title: string): (r: string)
    ensures r == originalTitle || r == title
    ensures language == ReferenceLanguage ==> r == originalTitle
    ensures language != ReferenceLanguage ==> r == title
  {
    if language == ReferenceLanguage then originalTitle else title
  }

  /** Resolving again after the original title was overwritten by the result
      gives the same title, so the converter can be applied to its own output. */
  lemma ResolveTitleStable(language: string, originalTitle: string, title: string)
    ensures var r := ResolveTitle(language, originalTitle, title);
      ResolveTitle(language, r, title) == r
  {
  }

  /** The external movie metadata, as the mutable object the converter receives. */
  class MoviePayload {
    var id: MovieId
    var title: string
    var originalTitle: string
    var language: string
    var image: string
    var backdrop: Option<string>

    constructor (id: MovieId, title: string, originalTitle: string, language: string,
                 image: string, backdrop: Option<string>)
      ensures this.id == id && this.title == title && this.originalTitle == originalTitle
      ensures this.language == language && this.image == image && this.backdrop == backdrop
    {
      this.id := id;
      this.title := title;
      this.originalTitle := originalTitle;
      this.language := language;
      this.image := image;
      this.backdrop := backdrop;
    }
  }

  /** The Movie for a metadata object. The object's original title is
      overwritten with the resolved title; none of its other fields changes. */
  method MovieFromJson(movie: MoviePayload) returns (m: Movie)
    modifies movie`originalTitle
    ensures m.id == RenderId(movie.id) && m.image == movie.image
    ensures m.title == ResolveTitle(movie.language, old(movie.originalTitle), movie.title)
    ensures movie.originalTitle == m.title
  {
    movie.originalTitle := ResolveTitle(movie.language, movie.originalTitle, movie.title);
    m := Movie(RenderId(movie.id), movie.originalTitle, movie.image);
  }
}
