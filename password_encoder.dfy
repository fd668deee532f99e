/** The password encoder the services are given. It is a foreign library, so it is a
    parameter: a one-way `encode` and a `matches` test of a raw password (possibly
    null) against a stored hash. */
module PasswordEncoding {
  import opened Common

  datatype PasswordEncoder = PasswordEncoder(encode: string -> string, matches: (Option<string>, string) -> bool)

  /** What every sensible encoder promises: a password matches its own encoding. */
  ghost predicate Sound(encoder: PasswordEncoder)
  {
    forall raw :: encoder.matches(Some(raw), encoder.encode(raw))
  }
}
