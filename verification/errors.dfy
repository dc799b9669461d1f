/** The application error taxonomy (internal/app/errors/errors.go) and a model of Go's
    `error` interface: either an AppError or some other error with a message. */
module AppErrors {
  import opened Wrappers

  /** The four error categories; distinct constructors, so pairwise distinct. */
  datatype ErrorType = Unknown | Authorization | IncorrectInput | NotFound {
    /** The tag string each category carries in the source. */
    function Tag(): string
    {
      match this
      case Unknown => "unknown"
      case Authorization => "authorization"
      case IncorrectInput => "incorrect-input"
      case NotFound => "not-found"
    }
  }

  datatype AppError = AppError(message: string, slug: string, errorType: ErrorType) {
    /** The human-readable message. */
    function Error(): string { message }
    /** The machine-readable slug. */
    function Slug(): string { slug }
  }

  /** A value of Go's `error` interface type. */
  datatype Error = App(app: AppError) | Other(text: string) {
    /** Go's Error() method. */
    function Message(): string {
      match this
      case App(a) => a.Error()
      case Other(t) => t
    }
  }

  /** A Go result pair `(T, error)`: the value is returned even when there is an error. */
  datatype Outcome<T> = Outcome(value: T, err: Option<Error>) {
    predicate Ok() { err.None? }
  }

  function NewAppError(message: string, slug: string): (e: AppError)
    ensures e.errorType == Unknown && e.Error() == message && e.Slug() == slug
  {
    AppError(message, slug, Unknown)
  }

  function NewAuthorizationError(message: string, slug: string): (e: AppError)
    ensures e.errorType == Authorization && e.Error() == message && e.Slug() == slug
  {
    AppError(message, slug, Authorization)
  }

  function NewIncorrectInputError(message: string, slug: string): (e: AppError)
    ensures e.errorType == IncorrectInput && e.Error() == message && e.Slug() == slug
  {
    AppError(message, slug, IncorrectInput)
  }

  function NewNotFoundError(message: string, slug: string): (e: AppError)
    ensures e.errorType == NotFound && e.Error() == message && e.Slug() == slug
  {
    AppError(message, slug, NotFound)
  }

  /** The type assertion `err.(AppError)` succeeds. */
  predicate IsApp(err: Error)
  {
    err.App?
  }

  predicate IsNotFound(err: Error)
  {
    match err
    case App(app) => app.errorType == NotFound
    case Other(_) => false
  }

  /** IsNotFound holds exactly for AppErrors built by NewNotFoundError, and never for a
      non-AppError. */
  lemma IsNotFoundExactly(err: Error)
    ensures IsNotFound(err) <==> exists m, s :: err == App(NewNotFoundError(m, s))
    ensures !IsApp(err) ==> !IsNotFound(err)
  {
    if IsNotFound(err) {
      assert err == App(NewNotFoundError(err.app.message, err.app.slug));
    }
  }

  /** Only the NotFound constructor yields an error IsNotFound accepts. */
  lemma OtherConstructorsAreNotNotFound(m: string, s: string)
    ensures !IsNotFound(App(NewAppError(m, s)))
    ensures !IsNotFound(App(NewAuthorizationError(m, s)))
    ensures !IsNotFound(App(NewIncorrectInputError(m, s)))
    ensures IsNotFound(App(NewNotFoundError(m, s))) && IsApp(App(NewNotFoundError(m, s)))
  {
  }

  /** The four category tags are pairwise distinct, so comparing ErrorType values compares
      categories. */
  lemma TagsDistinct(a: ErrorType, b: ErrorType)
    ensures a.Tag() == b.Tag() <==> a == b
  {
  }
}
