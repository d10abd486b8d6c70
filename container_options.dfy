/** The description of a container to create. */
module Options {
  import opened Wrappers

  /** Image to run, optional entry point command line, environment
      assignments (`NAME=value`) and port declarations
      (`containerPort:hostPort`). */
  datatype ContainerOptions = ContainerOptions(
    imageName: string,
    entryPoint: Option<string>,
    environmentVariables: seq<string>,
    portBindings: seq<string>)

  /** `new ContainerOptions()`: every property at its initializer. */
  const Default := ContainerOptions("", None, [], [])

  /** `new ContainerOptions { ImageName = imageName }`. */
  function WithImage(imageName: string): ContainerOptions
  {
    Default.(imageName := imageName)
  }
}
