/**
 * Values shared by the whole profiler model: instruction addresses, the
 * answers of the symbol service, and Option.
 */
module Types {

  /** An instruction or function-entry address: a 32-bit DWORD, as the tables key them. */
  type Addr = x: nat | x < 0x1_0000_0000

  /** An operating-system thread identifier. */
  type ThreadId = nat

  datatype Option<+T> = None | Some(value: T)

  /** What the symbol service reports for an address: the canonical entry address of the
      function containing it, and the function's display name. */
  datatype Symbol = Symbol(entry: Addr, name: string)

  /** What the line lookup reports for an address: a source file and a line number. */
  datatype SourceLine = SourceLine(file: string, line: nat)

  /** The symbol service's "resolve address to function" capability (SymFromAddr).
      None stands for a failed lookup. */
  type Resolver = Addr -> Option<Symbol>

  /** The symbol service's "resolve address to file and line" capability (SymGetLineFromAddr). */
  type LineResolver = Addr -> Option<SourceLine>
}
