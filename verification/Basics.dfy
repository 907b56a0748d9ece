/** Types shared by several components. */
module Basics {
  datatype Option<+T> = None | Some(value: T)

  datatype Result<+T> = Ok(value: T) | Err(message: string)

  datatype Direction = Buy | Sell

  function Opposite(d: Direction): Direction {
    if d == Buy then Sell else Buy
  }
}
