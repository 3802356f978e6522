/**
 * Values shared by both copies of the directory resolver: the folder
 * categories, the exceptions the resolver can raise, and the Option and
 * Result wrappers used to carry them.
 */
module Types {

  datatype Option<+T> = None | Some(value: T)

  /** The exceptions the resolver lets escape, by the Python class that carries them. */
  datatype Error =
    | TypeError                       // os.path.join(path, None) on Python 3, or os.path.exists() with no argument
    | MissingAuthor                   // RuntimeError('app_author must be provided on Windows')
    | UnsupportedOS(platform: string) // RuntimeError('Unsupported operating system: ...')
    | IndexError                      // folder_type.split('_')[1] on a tag without '_'
    | OSError(path: string)           // os.makedirs refused by the filesystem

  datatype Result<+T> = Ok(value: T) | Err(error: Error) {
    predicate IsFailure() { Err? }

    function PropagateFailure<U>(): Result<U>
      requires Err?
    {
      Err(error)
    }

    function Extract(): T
      requires Ok?
    {
      value
    }
  }

  /** The seven folder categories the accessors pass to the resolver. */
  datatype Category =
    | UserData | UserConfig | UserState | UserCache | UserLog
    | SiteData | SiteConfig

  /** The folder_type string each accessor passes; the resolver branches on these strings. */
  function Tag(c: Category): string
  {
    match c
    case UserData => "user_data"
    case UserConfig => "user_config"
    case UserState => "user_state"
    case UserCache => "user_cache"
    case UserLog => "user_log"
    case SiteData => "site_data"
    case SiteConfig => "site_config"
  }

  /** Each category passes its own folder_type string. */
  lemma TagInjective(c: Category, d: Category)
    ensures Tag(c) == Tag(d) <==> c == d
  {
    if c != d {
      assert |Tag(c)| != |Tag(d)| || Tag(c)[0] != Tag(d)[0] || Tag(c)[5] != Tag(d)[5];
    }
  }

  /** The sub-folder a virtualenv gives each category: the text after the '_' of its tag. */
  function Kind(c: Category): string
  {
    match c
    case UserData | SiteData => "data"
    case UserConfig | SiteConfig => "config"
    case UserState => "state"
    case UserCache => "cache"
    case UserLog => "log"
  }

  predicate IsSite(c: Category)
  {
    c == SiteData || c == SiteConfig
  }
}
