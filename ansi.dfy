/** ANSI escape sequences used by both log colourers (the Go code spells them `\033[..m`). */
module Ansi {

  const Green := "\U{1B}[32m"
  const Cyan := "\U{1B}[36m"
  const Yellow := "\U{1B}[33m"
  const Red := "\U{1B}[31m"
  const Reset := "\U{1B}[0m"
}
