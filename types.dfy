/** The shared record types of the editor (`types.ts`). */
module Types {

  import opened Wrappers

  /** `ValidationResult`: `error` and `line` are optional; `line` is 1-based. */
  datatype ValidationResult = ValidationResult(isValid: bool, error: Option<string>, line: Option<int>)

  /** `{ isValid: true }`. */
  const VALID := ValidationResult(true, None, None)

  /** A failed verdict without a source position. */
  function Invalid(message: string): (r: ValidationResult)
    ensures !r.isValid && r.error == Some(message) && r.line.None?
  {
    ValidationResult(false, Some(message), None)
  }

  /** The string union `'basic' | 'database' | 'full-stack' | 'ai'`. */
  datatype Category = Basic | Database | FullStack | Ai

  /** `Template`: a named compose document offered in the sidebar. */
  datatype Template = Template(id: string, name: string, description: string, content: string, category: Category)

}
