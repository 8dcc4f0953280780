/**
 * Small extensions of `Optional`: turning `nil` into a thrown error
 * (`orThrow`), testing for nil-or-empty, and matching against a predicate,
 * with the two ways of preparing an image for upload and of handling a
 * search that the extensions are meant to simplify.
 *
 * `convertToData` (a JPEG conversion) and the search bar's text are not
 * computed here: the conversion is a parameter, a failable function from
 * images to bytes, and the text is passed in.
 */
module ExtendingOptionals {
  import opened Wrappers

  type Data = seq<bv8>

  datatype ImagePreparationError = PreparationFailed | AnotherThingFailed

  /** Size that `checkSize` requires data to exceed. */
  const MinimumSize := 40

  /** `checkSize`: the data itself when it holds more than 40 bytes, `nil` otherwise. */
  function CheckSize(image: Data): (r: Option<Data>)
    ensures r == Some(image) <==> |image| > MinimumSize
    ensures r == None <==> |image| <= MinimumSize
  {
    if |image| > MinimumSize then Some(image) else None
  }

  /** `prepareImageForUpload`: two guards, each throwing `preparationFailed`. */
  function PrepareImageForUpload<I>(image: I, convertToData: I -> Option<Data>): (r: Result<Data, ImagePreparationError>)
    ensures var c := convertToData(image);
            r == if c.Some? && |c.value| > MinimumSize then Success(c.value) else Failure(PreparationFailed)
  {
    match convertToData(image)
    case None => Failure(PreparationFailed)
    case Some(compressed) =>
      match CheckSize(compressed)
      case None => Failure(PreparationFailed)
      case Some(compressedImage) => Success(compressedImage)
  }

  /**
   * `Optional.orThrow`: the wrapped value, or the error the autoclosure
   * `errorExpression` evaluates to.
   */
  function OrThrow<T, E>(o: Option<T>, errorExpression: () -> E): (r: Result<T, E>)
    ensures o.Some? <==> r.Success?
    ensures o.Some? ==> r.value == o.value
    ensures o.None? ==> r.error == errorExpression()
  {
    match o
    case None => Failure(errorExpression())
    case Some(value) => Success(value)
  }

  /** `prepareImageForUploadV2`: `convertToData(image).flatMap(checkSize).orThrow(.preparationFailed)`. */
  function PrepareImageForUploadV2<I>(image: I, convertToData: I -> Option<Data>): (r: Result<Data, ImagePreparationError>)
    ensures var c := convertToData(image);
            r == if c.Some? && |c.value| > MinimumSize then Success(c.value) else Failure(PreparationFailed)
  {
    OrThrow(convertToData(image).FlatMap(CheckSize), () => PreparationFailed)
  }

  /** The result of `orThrow` on a present value does not depend on the error expression. */
  lemma OrThrowIgnoresErrorWhenPresent<T, E>(x: T, e1: () -> E, e2: () -> E)
    ensures OrThrow(Some(x), e1) == OrThrow(Some(x), e2) == Success(x)
  {
  }

  /** Both ways of preparing an image agree for every conversion. */
  lemma PrepareImageVersionsAgree<I>(image: I, convertToData: I -> Option<Data>)
    ensures PrepareImageForUpload(image, convertToData) == PrepareImageForUploadV2(image, convertToData)
  {
  }

  /** `isNilOrEmpty`: `self?.isEmpty ?? true`. */
  function IsNilOrEmpty<T>(o: Option<seq<T>>): (b: bool)
    ensures b <==> o == None || o == Some([])
  {
    match o
    case None => true
    case Some(c) => |c| == 0
  }

  /** `withPredicate`: the value if it is present and satisfies `test` (the `predicate` argument), `nil` otherwise. */
  function WithPredicate<T>(o: Option<T>, test: T -> bool): (r: Option<T>)
    ensures r.Some? <==> o.Some? && test(o.value)
    ensures r.Some? ==> r == o
  {
    match o
    case None => None
    case Some(value) => if test(value) then Some(value) else None
  }

  /** Two `withPredicate` calls in a row match against the conjunction of their predicates. */
  lemma WithPredicateChain<T>(o: Option<T>, p: T -> bool, q: T -> bool)
    ensures WithPredicate(WithPredicate(o, p), q) == WithPredicate(o, x => p(x) && q(x))
  {
  }

  /** Length a query must exceed before a search runs. */
  const MinimumQueryLength := 2

  /** `handleSearch`: the query `performSearch` is called with, or `None` when it is not called. */
  function HandleSearch(text: Option<string>): (r: Option<string>)
    ensures r.Some? <==> text.Some? && |text.value| > MinimumQueryLength
    ensures r.Some? ==> r == text
  {
    match text
    case None => None
    case Some(query) => if |query| > MinimumQueryLength then Some(query) else None
  }

  /** `handleSearchV2`: `text.withPredicate { $0.count > 2 }.map(performSearch)`. */
  function HandleSearchV2(text: Option<string>): (r: Option<string>)
    ensures r.Some? <==> text.Some? && |text.value| > MinimumQueryLength
    ensures r.Some? ==> r == text
  {
    WithPredicate(text, (q: string) => |q| > MinimumQueryLength).Map((q: string) => q)
  }

  /** Both ways of handling a search call `performSearch` in the same cases and with the same query. */
  lemma HandleSearchVersionsAgree(text: Option<string>)
    ensures HandleSearch(text) == HandleSearchV2(text)
  {
  }
}
