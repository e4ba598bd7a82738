/** The ANSI escape sequences of the `Colors` class (aidoc/AiDoc.py:21-31). */
module Colors {

  const Esc: char := 27 as char

  const Header: string := [Esc] + "[95m"
  const Blue: string := [Esc] + "[94m"
  const Cyan: string := [Esc] + "[96m"
  const Green: string := [Esc] + "[92m"
  const Yellow: string := [Esc] + "[93m"
  const Red: string := [Esc] + "[91m"
  const EndC: string := [Esc] + "[0m"
  const Bold: string := [Esc] + "[1m"
  const Underline: string := [Esc] + "[4m"
  const Magenta: string := [Esc] + "[35m"
}
