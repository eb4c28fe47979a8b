/** The two shapes the configuration file is decoded into: an ordered list of
    link pairs and an ordered list of package names. Reading and decoding the
    file is not part of this model. */
module ConfigTypes {

  /** One symlink to create: `to` will point at `from`. Either path may contain
      a `~` that stands for the home directory. */
  datatype SymLink = SymLink(from: string, to: string)

  /** The whole work list of a run, in the order it is processed. */
  datatype Config = Config(symlinks: seq<SymLink>, packages: seq<string>)
}

/** The phase enumeration of the progress model. */
module Phases {

  /** Packages come first; Symlinks follow once every package was attempted. */
  datatype Phase = Packages | Symlinks
}
