/** The shapes exchanged with the remote spreadsheet service. The calls
    themselves (`verificarQRActivo`, `enviarDatosGanador`) are outside the
    model: their answers are given to the form controller as inputs. */
module Gateway {

  datatype Option<T> = None | Some(value: T)

  /** One call to `verificarQRActivo`: the code sent and the `activo` answer. */
  datatype QrCheck = QrCheck(code: string, activo: bool)

  /** The answer of `enviarDatosGanador`: a status and an optional message. */
  datatype RegistrationReply = RegistrationReply(status: string, message: Option<string>)

  const Success := "success"
}
