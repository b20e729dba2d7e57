/** The semantic colour functions of term/term.go that the display code picks by
    HTTP status (`t.Success`, `t.Warn`, `t.Fail`). Only which one is chosen is
    modelled; the ANSI colour codes are presentation. */
module Term {

  datatype StatusColour = Success | Warn | Fail
}
