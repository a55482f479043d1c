/** The error kinds the reconfiguration engine and the control server report,
    and the result type that carries them. */
module Failures {

  datatype Error =
    | TemplateReadError(path: string)   // the custom template file cannot be read
    | FileWriteError(path: string)      // the rendered template cannot be written
    | ConsulTemplateError               // the consul-template command failed
    | ProxyRebuildError                 // proxy.CreateConfigFromTemplates failed
    | ProxyReloadError                  // proxy.Reload failed
    | KvWriteError(url: string)         // a PUT to the key-value store failed
    | CatalogError(url: string)         // the service catalog could not be fetched
    | RunError                          // the startup Run step failed
    | ListenError(address: string)      // the listener could not be started
    | RemoveError(serviceName: string)  // the Remove capability failed

  datatype Result<T> = Ok(value: T) | Err(error: Error)

  datatype Option<T> = None | Some(value: T)
}
